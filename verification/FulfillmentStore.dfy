/** The operations of saleor/order/actions.py as they change the tables, each proved against its specification. */
module FulfillmentStore {

  import opened Wrappers
  import opened Fulfillment
  import opened FulfillmentCreation
  import opened FulfillmentRefunds
  import opened FulfillmentStatuses
  import FulfillmentQuantities
  import FulfillmentRuns

  function PositiveOf(requests: seq<LineRequest>): seq<LineRequest> {
    if requests == [] then []
    else (if requests[0].quantity > 0 then [requests[0]] else []) + PositiveOf(requests[1..])
  }

  lemma {:induction false} PositiveAre(requests: seq<LineRequest>)
    ensures forall q :: q in PositiveOf(requests) <==> q in requests && q.quantity > 0
  {
    if requests != [] {
      PositiveAre(requests[1..]);
      assert forall q :: q in requests <==> q == requests[0] || q in requests[1..];
    }
  }

  /** Every order line has gained what the requests ask of it. */
  predicate AddedTo(before: seq<OrderLine>, after: seq<OrderLine>, requests: seq<LineRequest>) {
    && |after| == |before|
    && forall l :: 0 <= l < |before| ==>
         after[l] == before[l].(fulfilled := before[l].fulfilled + FulfillmentRuns.AskedOfLine(requests, l))
  }

  lemma {:induction false} AskedOfPositive(requests: seq<LineRequest>, l: nat)
    ensures FulfillmentRuns.AskedOfLine(PositiveOf(requests), l) == FulfillmentQuantities.Requested(requests, l)
  {
    if requests != [] {
      AskedOfPositive(requests[1..], l);
      if requests[0].quantity > 0 {
        assert PositiveOf(requests)[1..] == PositiveOf(requests[1..]);
      } else {
        assert PositiveOf(requests) == PositiveOf(requests[1..]);
      }
    }
  }

  lemma AddedIsIncreased(before: seq<OrderLine>, after: seq<OrderLine>, requests: seq<LineRequest>)
    requires forall q :: q in requests ==> q.line < |before|
    requires AddedTo(before, after, PositiveOf(requests))
    ensures after == IncreaseAll(before, requests)
  {
    forall l | 0 <= l < |before| ensures after[l] == IncreaseAll(before, requests)[l] {
      AskedOfPositive(requests, l);
      FulfillmentQuantities.IncreaseAllAdds(before, requests, l);
    }
  }

  lemma NothingAdded(lines: seq<OrderLine>)
    ensures AddedTo(lines, lines, [])
  {
  }

  /** The first `i` requests are added. */
  predicate AddedSoFar(before: seq<OrderLine>, lines: seq<OrderLine>, requests: seq<LineRequest>, i: nat)
    requires i <= |requests|
  {
    && |lines| == |before|
    && forall l :: 0 <= l < |before| ==>
         && lines[l] == before[l].(fulfilled := lines[l].fulfilled)
         && lines[l].fulfilled + FulfillmentRuns.AskedOfLine(requests[i..], l)
            == before[l].fulfilled + FulfillmentRuns.AskedOfLine(requests, l)
  }

  lemma AddedNext(before: seq<OrderLine>, lines: seq<OrderLine>, requests: seq<LineRequest>, i: nat)
    requires i < |requests| && requests[i].line < |lines| && AddedSoFar(before, lines, requests, i)
    ensures AddedSoFar(before, Increase(lines, requests[i].line, requests[i].quantity), requests, i + 1)
  {
    assert requests[i..][0] == requests[i] && requests[i..][1..] == requests[i + 1..];
  }

  lemma PickStep(s: Store, requests: seq<ItemRequest>, i: nat, refunded: bool)
    requires ItemsKnown(s.items, requests) && i < |requests|
    ensures requests[i] in requests
    ensures Pick(s, requests[i..], refunded)
         == (if AlreadyRefunded(s, requests[i]) == refunded then [requests[i]] else [])
             + Pick(s, requests[i + 1..], refunded)
  {
    assert requests[i..][0] == requests[i] && requests[i..][1..] == requests[i + 1..];
  }

  lemma {:induction false} FindInPrefix(items: seq<Option<Item>>, more: seq<Option<Item>>, listed: seq<nat>, line: nat,
                                        stock: Option<nat>)
    requires forall k :: k in listed ==> k < |items|
    ensures FindItem(items + more, listed, line, stock) == FindItem(items, listed, line, stock)
  {
    if listed != [] {
      assert listed[0] in listed;
      forall k | k in listed[1..] ensures k < |items| {
        assert k in listed;
      }
      FindInPrefix(items, more, listed[1..], line, stock);
    }
  }

  /** The lines that one request creates. */
  function Created(objects: seq<Option<Item>>, listed: seq<nat>, source: Item, target: nat,
                   moved: int): seq<Option<Item>> {
    if FindItem(objects, listed, source.line, source.stock).None? && moved > 0
    then [Some(Item(target, source.line, source.stock, moved))]
    else []
  }

  /** The objects of the listed lines after one request. */
  function Merged(objects: seq<Option<Item>>, listed: seq<nat>, source: Item, moved: int): (r: seq<Option<Item>>)
    ensures |r| == |objects|
    ensures forall k :: 0 <= k < |r| ==> r[k].Some? == objects[k].Some?
  {
    var found := FindItem(objects, listed, source.line, source.stock);
    if found.Some? then Add(objects, found.value, moved) else objects
  }

  /** One request, with the objects of saved rows apart from those that are still to be created. */
  lemma MoveItemApart(objects: seq<Option<Item>>, toCreate: seq<Option<Item>>, emptied: set<nat>, q: ItemRequest,
                      listed: seq<nat>, target: nat)
    requires q.item < |objects| && objects[q.item].Some?
    requires forall k :: k in listed ==> k < |objects|
    ensures
      var source := objects[q.item].value;
      var moved := Min(source.quantity, q.quantity);
      var left := Add(Merged(objects, listed, source, moved), q.item, -moved);
      MoveItem(Moving(objects + toCreate, emptied), q, listed, target)
      == Moving(left + (toCreate + Created(objects, listed, source, target, moved)),
                if left[q.item].value.quantity == 0 then emptied + {q.item} else emptied)
  {
    var source := objects[q.item].value;
    FindInPrefix(objects, toCreate, listed, source.line, source.stock);
    var moved := Min(source.quantity, q.quantity);
    var merged := Merged(objects, listed, source, moved);
    var created := Created(objects, listed, source, target, moved);
    assert Gain(objects + toCreate, listed, source, target, moved) == merged + (toCreate + created);
    assert Add(merged + (toCreate + created), q.item, -moved) == Add(merged, q.item, -moved) + (toCreate + created);
  }

  /** The first `i` requests have been carried out; the rest leads to `done`. */
  predicate RestLeadsTo(m: Moving, requests: seq<ItemRequest>, i: nat, listed: seq<nat>, target: nat, done: Moving)
    requires i <= |requests| && ItemsKnown(m.items, requests[i..]) && forall k :: k in listed ==> k < |m.items|
  {
    MoveItems(m, requests[i..], listed, target) == done
  }

  lemma MoveStep(objects: seq<Option<Item>>, toCreate: seq<Option<Item>>, emptied: set<nat>, requests: seq<ItemRequest>,
                 i: nat, listed: seq<nat>, target: nat, source: Item, moved: int, left: seq<Option<Item>>, done: Moving)
    requires i < |requests| && ItemsKnown(objects, requests)
    requires forall k :: k in listed ==> k < |objects|
    requires requests[i] in requests && objects[requests[i].item] == Some(source)
    requires moved == Min(source.quantity, requests[i].quantity)
    requires left == Add(Merged(objects, listed, source, moved), requests[i].item, -moved)
    requires RestLeadsTo(Moving(objects + toCreate, emptied), requests, i, listed, target, done)
    ensures
      var next := if left[requests[i].item].value.quantity == 0 then emptied + {requests[i].item} else emptied;
      var created := toCreate + Created(objects, listed, source, target, moved);
      RestLeadsTo(Moving(left + created, next), requests, i + 1, listed, target, done)
  {
    var q := requests[i];
    assert requests[i..][0] == q && requests[i..][1..] == requests[i + 1..];
    MoveItemApart(objects, toCreate, emptied, q, listed, target);
  }

  lemma SkipStep(m: Moving, requests: seq<ItemRequest>, i: nat, listed: seq<nat>, target: nat, done: Moving)
    requires i < |requests| && ItemsKnown(m.items, requests) && forall k :: k in listed ==> k < |m.items|
    requires requests[i] in requests && m.items[requests[i].item].None?
    requires RestLeadsTo(m, requests, i, listed, target, done)
    ensures RestLeadsTo(m, requests, i + 1, listed, target, done)
  {
    assert requests[i..][0] == requests[i] && requests[i..][1..] == requests[i + 1..];
  }

  /** Every changed object is to be written or deleted. */
  predicate Tracked(items: seq<Option<Item>>, objects: seq<Option<Item>>, toUpdate: seq<nat>, emptied: set<nat>)
    requires |objects| == |items|
  {
    forall k :: 0 <= k < |items| ==> k in toUpdate || k in emptied || objects[k] == items[k]
  }

  function NewItem(fulfillment: nat, b: Batch, stocks: Stocks, q: LineRequest): Option<Item> {
    Some(Item(fulfillment, q.line, StockOf(stocks, b.warehouse, q.line), q.quantity))
  }

  /** What was collected for the first `i` requests; the rest is still to come. */
  predicate Collected(fulfillment: nat, b: Batch, stocks: Stocks, i: nat, infos: seq<LineRequest>,
                      made: seq<Option<Item>>)
    requires i <= |b.requests|
  {
    && infos + PositiveOf(b.requests[i..]) == PositiveOf(b.requests)
    && made + NewItems(fulfillment, b.(requests := b.requests[i..]), stocks) == NewItems(fulfillment, b, stocks)
  }

  lemma CollectStep(fulfillment: nat, b: Batch, stocks: Stocks, i: nat, infos: seq<LineRequest>,
                    made: seq<Option<Item>>)
    requires i < |b.requests|
    requires Collected(fulfillment, b, stocks, i, infos, made)
    ensures
      var q := b.requests[i];
      if q.quantity > 0
      then Collected(fulfillment, b, stocks, i + 1, infos + [q], made + [NewItem(fulfillment, b, stocks, q)])
      else Collected(fulfillment, b, stocks, i + 1, infos, made)
  {
    var q := b.requests[i];
    var from := b.(requests := b.requests[i..]);
    var next := b.(requests := b.requests[i + 1..]);
    assert from.requests[0] == q && from.requests[1..] == next.requests;
    if q.quantity > 0 {
      assert PositiveOf(from.requests) == [q] + PositiveOf(next.requests);
      assert NewItems(fulfillment, from, stocks) == [NewItem(fulfillment, b, stocks, q)]
          + NewItems(fulfillment, next, stocks);
      Shift(infos, q, PositiveOf(next.requests));
      Shift(made, NewItem(fulfillment, b, stocks, q), NewItems(fulfillment, next, stocks));
    } else {
      assert PositiveOf(from.requests) == PositiveOf(next.requests);
    }
  }

  lemma Shift<T>(a: seq<T>, x: T, rest: seq<T>)
    ensures (a + [x]) + rest == a + ([x] + rest)
  {
  }

  /** The loop of `_create_fulfillment_lines`. */
  method CollectLines(fulfillment: nat, b: Batch, stocks: Stocks, exceed: bool)
    returns (insufficient: seq<nat>, infos: seq<LineRequest>, made: seq<Option<Item>>)
    ensures insufficient == [] <==> exceed || !LacksStock(b, stocks)
    ensures insufficient == [] ==> infos == PositiveOf(b.requests) && made == NewItems(fulfillment, b, stocks)
  {
    insufficient, infos, made := [], [], [];
    var i := 0;
    assert b.requests[i..] == b.requests;
    while i < |b.requests|
      invariant 0 <= i <= |b.requests|
      invariant exceed ==> insufficient == []
      invariant !exceed ==> (insufficient == [] <==> forall j :: 0 <= j < i ==> !Lacks(b, stocks, b.requests[j]))
      invariant insufficient == [] ==> Collected(fulfillment, b, stocks, i, infos, made)
    {
      var q := b.requests[i];
      if insufficient == [] {
        CollectStep(fulfillment, b, stocks, i, infos, made);
      }
      i := i + 1;
      if q.quantity > 0 {
        var stock := StockOf(stocks, b.warehouse, q.line);
        if stock.None? && !exceed {
          insufficient := insufficient + [q.line];
          continue;
        }
        infos := infos + [q];
        made := made + [Some(Item(fulfillment, q.line, stock, q.quantity))];
      }
    }
    assert b.requests[i..] == [];
  }

  /** What was picked from the first `i` requests; the rest is still to come. */
  predicate Picked(s: Store, requests: seq<ItemRequest>, i: nat, refunded: bool, picked: seq<ItemRequest>)
    requires ItemsKnown(s.items, requests) && i <= |requests|
  {
    picked + Pick(s, requests[i..], refunded) == Pick(s, requests, refunded)
  }

  lemma PickedNext(s: Store, requests: seq<ItemRequest>, i: nat, refunded: bool, picked: seq<ItemRequest>)
    requires ItemsKnown(s.items, requests) && i < |requests| && Picked(s, requests, i, refunded, picked)
    ensures requests[i] in requests
    ensures Picked(s, requests, i + 1, refunded,
                   if AlreadyRefunded(s, requests[i]) == refunded then picked + [requests[i]] else picked)
  {
    PickStep(s, requests, i, refunded);
    if AlreadyRefunded(s, requests[i]) == refunded {
      Shift(picked, requests[i], Pick(s, requests[i + 1..], refunded));
    } else {
      assert [] + Pick(s, requests[i + 1..], refunded) == Pick(s, requests[i + 1..], refunded);
    }
  }

  lemma PickedAll(s: Store, requests: seq<ItemRequest>, refunded: bool, picked: seq<ItemRequest>)
    requires ItemsKnown(s.items, requests) && Picked(s, requests, |requests|, refunded, picked)
    ensures picked == Pick(s, requests, refunded)
  {
    assert requests[|requests|..] == [];
    assert picked + [] == picked;
  }

  /** The loop of `_move_lines_to_return_fulfillment` that separates the lines that were refunded before. */
  method SeparateRefunded(s: Store, requests: seq<ItemRequest>)
    returns (already: seq<ItemRequest>, others: seq<ItemRequest>)
    requires ItemsKnown(s.items, requests)
    ensures already == Pick(s, requests, true)
    ensures others == Pick(s, requests, false)
  {
    already, others := [], [];
    var i := 0;
    assert requests[i..] == requests;
    while i < |requests|
      invariant 0 <= i <= |requests|
      invariant Picked(s, requests, i, true, already)
      invariant Picked(s, requests, i, false, others)
    {
      var q := requests[i];
      PickedNext(s, requests, i, true, already);
      PickedNext(s, requests, i, false, others);
      if AlreadyRefunded(s, q) {
        already := already + [q];
      } else {
        others := others + [q];
      }
      i := i + 1;
    }
    PickedAll(s, requests, true, already);
    PickedAll(s, requests, false, others);
  }

  lemma StaysTracked(items: seq<Option<Item>>, objects: seq<Option<Item>>, left: seq<Option<Item>>, toUpdate: seq<nat>,
                     written: seq<nat>, emptied: set<nat>, gone: set<nat>)
    requires |items| == |objects| == |left| && Tracked(items, objects, toUpdate, emptied)
    requires Tracked(objects, left, written, gone)
    ensures Tracked(items, left, toUpdate + written, emptied + gone)
  {
  }

  /** One turn of the loop: `written` are the rows to be written, and the source itself may be empty and gone. */
  method MoveObject(objects: seq<Option<Item>>, q: ItemRequest, listed: seq<nat>, target: nat)
    returns (left: seq<Option<Item>>, created: seq<Option<Item>>, written: seq<nat>, gone: bool)
    requires q.item < |objects| && objects[q.item].Some? && forall k :: k in listed ==> k < |objects|
    ensures
      var source := objects[q.item].value;
      var moved := Min(source.quantity, q.quantity);
      && left == Add(Merged(objects, listed, source, moved), q.item, -moved)
      && created == Created(objects, listed, source, target, moved)
      && gone == (left[q.item].value.quantity == 0)
      && Tracked(objects, left, written, if gone then {q.item} else {})
  {
    var source := objects[q.item].value;
    var found := FindItem(objects, listed, source.line, source.stock);
    var moved := Min(source.quantity, q.quantity);
    left, written := objects, [];
    created := Created(objects, listed, source, target, moved);
    if found.Some? {
      left := Add(left, found.value, moved);
      written := written + [found.value];
    }
    left := Add(left, q.item, -moved);
    gone := left[q.item].value.quantity == 0;
    if !gone {
      written := written + [q.item];
    }
  }

  /**
   The loop of `_move_fulfillment_lines_to_target_fulfillment`. The quantities change in the loaded objects; which
   rows are to be written, created and deleted is collected on the way. A row that is already gone has nothing left
   to move.
   */
  method MoveObjects(items: seq<Option<Item>>, requests: seq<ItemRequest>, listed: seq<nat>, target: nat)
    returns (objects: seq<Option<Item>>, toCreate: seq<Option<Item>>, toUpdate: seq<nat>, emptied: set<nat>)
    requires ItemsKnown(items, requests)
    requires forall k :: k in listed ==> k < |items|
    ensures |objects| == |items|
    ensures Moving(objects + toCreate, emptied) == MoveItems(Moving(items, {}), requests, listed, target)
    ensures Tracked(items, objects, toUpdate, emptied)
  {
    objects, toCreate, toUpdate, emptied := items, [], [], {};
    ghost var done := MoveItems(Moving(items, {}), requests, listed, target);
    var i := 0;
    assert objects + toCreate == items && requests[i..] == requests;
    while i < |requests|
      invariant 0 <= i <= |requests|
      invariant |objects| == |items|
      invariant RestLeadsTo(Moving(objects + toCreate, emptied), requests, i, listed, target, done)
      invariant Tracked(items, objects, toUpdate, emptied)
    {
      var q := requests[i];
      if objects[q.item].None? {
        SkipStep(Moving(objects + toCreate, emptied), requests, i, listed, target, done);
      } else {
        ghost var source := objects[q.item].value;
        ghost var moved := Min(source.quantity, q.quantity);
        var left, created, written, gone := MoveObject(objects, q, listed, target);
        MoveStep(objects, toCreate, emptied, requests, i, listed, target, source, moved, left, done);
        StaysTracked(items, objects, left, toUpdate, written, emptied, if gone then {q.item} else {});
        objects, toCreate, toUpdate := left, toCreate + created, toUpdate + written;
        if gone {
          emptied := emptied + {q.item};
        }
      }
      i := i + 1;
    }
    assert requests[i..] == [];
  }

  /** The first `i` batches are created, their lines only collected; the rest is still to come. */
  predicate BatchesLeft(start: Store, s: Store, created: seq<Option<Item>>, batches: seq<Batch>, i: nat, status: Status,
                        stocks: Stocks)
    requires BatchesExist(start, batches) && i <= |batches|
  {
    && |s.lines| == |start.lines| && s.items == start.items && BatchesExist(s, batches[i..])
    && CreateBatches(s.(items := s.items + created), batches[i..], status, stocks)
       == CreateBatches(start, batches, status, stocks)
  }

  lemma CreateStep(start: Store, s: Store, created: seq<Option<Item>>, batches: seq<Batch>, i: nat, status: Status,
                   stocks: Stocks)
    requires BatchesExist(start, batches) && i < |batches|
    requires BatchesLeft(start, s, created, batches, i, status, stocks)
    ensures batches[i] in batches && LinesExist(s, batches[i].requests)
    ensures
      var b := batches[i];
      BatchesLeft(start, Store(IncreaseAll(s.lines, b.requests), s.fulfillments + [Some(status)], s.items),
                  created + NewItems(|s.fulfillments|, b, stocks), batches, i + 1, status, stocks)
  {
    var b := batches[i];
    assert batches[i..][0] == b && batches[i..][1..] == batches[i + 1..];
    assert b in batches[i..];
    assert s.items + (created + NewItems(|s.fulfillments|, b, stocks))
        == (s.items + created) + NewItems(|s.fulfillments|, b, stocks);
  }

  predicate NoneInsufficient(batches: seq<Batch>, i: nat, approved: bool, stocks: Stocks, exceed: bool)
    requires i <= |batches|
  {
    forall j :: 0 <= j < i ==> !Insufficient(batches[j], approved, stocks, exceed)
  }

  lemma NoBatchInsufficient(batches: seq<Batch>, approved: bool, stocks: Stocks, exceed: bool)
    requires NoneInsufficient(batches, |batches|, approved, stocks, exceed)
    ensures !AnyInsufficient(batches, approved, stocks, exceed)
  {
  }

  /** The loop of `cancel_waiting_fulfillment`: every fulfillment line loads and lowers its own copy. */
  method LoweredCopies(lines: seq<OrderLine>, items: seq<Option<Item>>, loaded: seq<nat>) returns (copies: seq<Copy>)
    requires AllPresent(items, loaded)
    requires forall i :: i in Rows(items, loaded) ==> i.line < |lines|
    ensures copies == Copies(lines, Rows(items, loaded))
  {
    ghost var rows := Rows(items, loaded);
    copies := [];
    var a := 0;
    while a < |loaded|
      invariant 0 <= a <= |loaded|
      invariant forall i :: i in rows[..a] ==> i.line < |lines|
      invariant copies == Copies(lines, rows[..a])
    {
      assert loaded[a] in loaded && rows[a] in rows;
      var item := items[loaded[a]].value;
      copies := copies + [Copy(item.line, lines[item.line].fulfilled - item.quantity)];
      assert rows[..a + 1][..a] == rows[..a];
      a := a + 1;
    }
    assert rows[..a] == rows;
  }

  class OrderStore {
    var lines: seq<OrderLine>
    var fulfillments: seq<Option<Status>>
    var items: seq<Option<Item>>

    function Contents(): Store
      reads this
    {
      Store(lines, fulfillments, items)
    }

    // --- Creating and approving ---

    /** `_increase_order_line_quantity`. */
    method IncreaseOrderLineQuantity(infos: seq<LineRequest>)
      requires forall q :: q in infos ==> q.line < |lines|
      modifies this`lines
      ensures AddedTo(old(lines), lines, infos)
    {
      var i := 0;
      assert infos[i..] == infos;
      while i < |infos|
        invariant 0 <= i <= |infos|
        invariant AddedSoFar(old(lines), lines, infos, i)
      {
        var q := infos[i];
        AddedNext(old(lines), lines, infos, i);
        lines := lines[q.line := lines[q.line].(fulfilled := lines[q.line].fulfilled + q.quantity)];
        i := i + 1;
      }
      assert infos[i..] == [];
    }

    /** `_create_fulfillment_lines`. */
    method CreateFulfillmentLines(fulfillment: nat, b: Batch, approved: bool, stocks: Stocks, exceed: bool)
      returns (raised: bool, made: seq<Option<Item>>)
      requires LinesExist(Contents(), b.requests)
      modifies this`lines
      ensures raised == Insufficient(b, approved, stocks, exceed)
      ensures raised <==> exists q :: q in b.requests && CannotFulfill(b, q, approved, stocks, exceed)
      ensures raised ==> lines == old(lines)
      ensures !raised ==> lines == IncreaseAll(old(lines), b.requests) && made == NewItems(fulfillment, b, stocks)
    {
      var insufficient, infos;
      BatchRaises(b, approved, stocks, exceed);
      insufficient, infos, made := CollectLines(fulfillment, b, stocks, exceed);
      if insufficient != [] {
        return true, made;
      }
      PositiveAre(b.requests);
      NothingAdded(lines);
      if infos != [] {
        assert infos[0] in PositiveOf(b.requests);
        if approved && !b.enough {
          return true, made;
        }
        IncreaseOrderLineQuantity(infos);
      }
      AddedIsIncreased(old(lines), lines, b.requests);
      raised := false;
    }

    /** The fulfillment of one warehouse, whose lines are created later. */
    method CreateFulfillmentFor(b: Batch, status: Status, approved: bool, stocks: Stocks, exceed: bool)
      returns (raised: bool, made: seq<Option<Item>>)
      requires LinesExist(Contents(), b.requests)
      modifies this`lines, this`fulfillments
      ensures raised == Insufficient(b, approved, stocks, exceed)
      ensures !raised ==>
        && lines == IncreaseAll(old(lines), b.requests) && fulfillments == old(fulfillments) + [Some(status)]
        && made == NewItems(|old(fulfillments)|, b, stocks)
    {
      var fulfillment := |fulfillments|;
      fulfillments := fulfillments + [Some(status)];
      raised, made := CreateFulfillmentLines(fulfillment, b, approved, stocks, exceed);
    }

    /** The loop of `create_fulfillments`, which stops when an `InsufficientStock` is raised. */
    method CreateLoop(batches: seq<Batch>, approved: bool, stocks: Stocks, exceed: bool)
      returns (raised: bool, created: seq<Option<Item>>)
      requires BatchesExist(Contents(), batches)
      modifies this`lines, this`fulfillments
      ensures raised == AnyInsufficient(batches, approved, stocks, exceed)
      ensures !raised ==>
        Contents().(items := items + created) == CreateBatches(old(Contents()), batches, StatusFor(approved), stocks)
    {
      ghost var start := Contents();
      var status := StatusFor(approved);
      created := [];
      var i := 0;
      assert items + created == items && batches[i..] == batches;
      while i < |batches|
        invariant 0 <= i <= |batches|
        invariant NoneInsufficient(batches, i, approved, stocks, exceed)
        invariant BatchesLeft(start, Contents(), created, batches, i, status, stocks)
      {
        CreateStep(start, Contents(), created, batches, i, status, stocks);
        var made;
        raised, made := CreateFulfillmentFor(batches[i], status, approved, stocks, exceed);
        if raised {
          return;
        }
        created := created + made;
        i := i + 1;
      }
      NoBatchInsufficient(batches, approved, stocks, exceed);
      assert batches[i..] == [];
      raised := false;
    }

    /** `create_fulfillments`: a raised `InsufficientStock` rolls the transaction back. */
    method CreateFulfillments(batches: seq<Batch>, approved: bool, stocks: Stocks, exceed: bool) returns (raised: bool)
      requires BatchesExist(Contents(), batches)
      modifies this
      ensures raised <==> Unfulfillable(batches, approved, stocks, exceed)
      ensures raised ==> Contents() == old(Contents())
      ensures !raised ==> IsCreated(old(Contents()), Contents(), batches, approved, stocks)
      ensures Contents() == Create(old(Contents()), batches, approved, stocks, exceed)
    {
      CreationRaises(batches, approved, stocks, exceed);
      CreationIsCreated(Contents(), batches, approved, stocks, exceed);
      var savedLines, savedFulfillments := lines, fulfillments;
      var created;
      raised, created := CreateLoop(batches, approved, stocks, exceed);
      if raised {
        lines, fulfillments := savedLines, savedFulfillments;
      } else {
        items := items + created;
      }
    }

    /** `approve_fulfillment`. */
    method ApproveFulfillment(fulfillment: nat, exceed: bool, enough: bool) returns (raised: bool)
      requires Exists(Contents(), fulfillment)
      modifies this
      ensures raised <==> CannotApprove(old(Contents()), fulfillment, exceed, enough)
      ensures Contents() == if raised then old(Contents())
        else old(Contents()).(fulfillments := old(fulfillments)[fulfillment := Some(Fulfilled)])
      ensures Contents() == Approve(old(Contents()), fulfillment, exceed, enough)
    {
      ApprovalRaises(Contents(), fulfillment, exceed, enough);
      var saved := fulfillments;
      fulfillments := fulfillments[fulfillment := Some(Fulfilled)];
      var insufficient: seq<nat> := [];
      var k := 0;
      while k < |items|
        invariant 0 <= k <= |items|
        invariant exceed ==> insufficient == []
        invariant !exceed ==> (insufficient == [] <==> forall j :: 0 <= j < k ==> !MissesStockAt(items[j], fulfillment))
      {
        if MissesStockAt(items[k], fulfillment) && !exceed {
          insufficient := insufficient + [items[k].value.line];
        }
        k := k + 1;
      }
      raised := insufficient != [] || !enough;
      if raised {
        fulfillments := saved;
      }
    }

    // --- Cancelling ---

    /** `cancel_waiting_fulfillment`. */
    method CancelWaitingFulfillment(fulfillment: nat, loaded: seq<nat>)
      requires Exists(Contents(), fulfillment)
      requires AllPresent(items, loaded)
      requires forall i :: i in Rows(items, loaded) ==> i.line < |lines|
      modifies this
      ensures Contents() == CancelWaiting(old(Contents()), fulfillment, loaded)
    {
      var copies := LoweredCopies(lines, items, loaded);
      lines := BulkUpdate(lines, copies);
      items := WithoutFulfillment(items, fulfillment);
      fulfillments := fulfillments[fulfillment := None];
    }

    // --- Moving ---

    /** `_move_order_lines_to_target_fulfillment`. */
    method MoveOrderLines(requests: seq<LineRequest>, target: nat) returns (created: seq<nat>)
      requires LinesExist(Contents(), requests)
      modifies this
      ensures Contents() == MoveLines(old(Contents()), requests, target)
      ensures |items| >= |old(items)| && created == Keys(|old(items)|, |items|)
    {
      var toCreate: seq<Option<Item>> := [];
      var i := 0;
      assert items + toCreate == items && requests[i..] == requests;
      while i < |requests|
        invariant 0 <= i <= |requests|
        invariant items == old(items) && fulfillments == old(fulfillments)
        invariant |lines| == |old(lines)|
        invariant MoveLines(Store(lines, fulfillments, items + toCreate), requests[i..], target)
               == MoveLines(old(Contents()), requests, target)
      {
        var q := requests[i];
        assert requests[i..][0] == q && requests[i..][1..] == requests[i + 1..];
        var line := lines[q.line];
        var moved := Min(line.Unfulfilled(), q.quantity);
        lines := lines[q.line := line.(fulfilled := line.fulfilled + moved)];
        assert items + (toCreate + [Some(Item(target, q.line, None, moved))])
            == (items + toCreate) + [Some(Item(target, q.line, None, moved))];
        toCreate := toCreate + [Some(Item(target, q.line, None, moved))];
        i := i + 1;
      }
      created := Keys(|items|, |items| + |toCreate|);
      items := items + toCreate;
    }

    /** Writes the objects of the listed rows, as `bulk_update` does. */
    method SaveItems(objects: seq<Option<Item>>, toUpdate: seq<nat>)
      requires |objects| == |items|
      modifies this`items
      ensures |items| == |objects|
      ensures forall k :: 0 <= k < |items| ==> items[k] == if k in toUpdate then objects[k] else old(items)[k]
    {
      var i := 0;
      while i < |toUpdate|
        invariant 0 <= i <= |toUpdate|
        invariant |items| == |objects|
        invariant forall k :: 0 <= k < |items| ==>
          items[k] == if k in toUpdate[..i] then objects[k] else old(items)[k]
      {
        assert toUpdate[..i + 1] == toUpdate[..i] + [toUpdate[i]];
        if toUpdate[i] < |items| {
          items := items[toUpdate[i] := objects[toUpdate[i]]];
        }
        i := i + 1;
      }
      assert toUpdate[..i] == toUpdate;
    }

    /** `_move_fulfillment_lines_to_target_fulfillment`. */
    method MoveFulfillmentLines(requests: seq<ItemRequest>, listed: seq<nat>, target: nat)
      requires ItemsKnown(items, requests)
      requires forall k :: k in listed ==> k < |items|
      modifies this`items
      ensures items == Transfer(old(items), requests, listed, target)
    {
      var objects, toCreate, toUpdate, emptied := MoveObjects(items, requests, listed, target);
      SaveItems(objects, toUpdate);
      items := items + toCreate;
      items := Delete(items, emptied);
      assert items == Delete(objects + toCreate, emptied);
    }

    // --- Refunding, replacing and returning ---

    /** The deletion of fulfillments without lines is one SQL statement. */
    method DeleteEmptyFulfillments()
      modifies this`fulfillments
      ensures Contents() == DropEmpty(old(Contents()))
    {
      fulfillments := DropEmpty(Contents()).fulfillments;
    }

    method CreateFulfillment(status: Status) returns (fulfillment: nat)
      modifies this`fulfillments
      ensures fulfillment == |old(fulfillments)|
      ensures Contents() == AddFulfillment(old(Contents()), status)
    {
      fulfillment := |fulfillments|;
      fulfillments := fulfillments + [Some(status)];
    }

    /** `create_refund_fulfillment`. */
    method CreateRefundFulfillment(lineRequests: seq<LineRequest>, itemRequests: seq<ItemRequest>)
      requires LinesExist(Contents(), lineRequests)
      requires ItemsKnown(items, itemRequests)
      modifies this
      ensures Contents() == Refund(old(Contents()), lineRequests, itemRequests)
      ensures EmptyOnesGo(old(fulfillments) + [Some(Refunded)], items, fulfillments)
    {
      RefundStatuses(Contents(), lineRequests, itemRequests);
      var target := CreateFulfillment(Refunded);
      LinesMoved(Contents(), lineRequests, target);
      var created := MoveOrderLines(lineRequests, target);
      MoveFulfillmentLines(itemRequests, created, target);
      DeleteEmptyFulfillments();
    }

    /** `_move_lines_to_replace_fulfillment`. */
    method MoveLinesToReplace(lineRequests: seq<LineRequest>, itemRequests: seq<ItemRequest>)
      requires LinesExist(Contents(), lineRequests)
      requires ItemsKnown(items, itemRequests)
      modifies this
      ensures Contents() == Replace(old(Contents()), lineRequests, itemRequests)
    {
      var target := CreateFulfillment(Replaced);
      LinesMoved(Contents(), lineRequests, target);
      var created := MoveOrderLines(lineRequests, target);
      MoveFulfillmentLines(itemRequests, created, target);
    }

    /** `_move_lines_to_return_fulfillment`. */
    method MoveLinesToReturn(lineRequests: seq<LineRequest>, itemRequests: seq<ItemRequest>, status: Status)
      requires LinesExist(Contents(), lineRequests)
      requires ItemsKnown(items, itemRequests)
      modifies this
      ensures Contents() == Return(old(Contents()), lineRequests, itemRequests, status)
    {
      var target := CreateFulfillment(status);
      LinesMoved(Contents(), lineRequests, target);
      var created := MoveOrderLines(lineRequests, target);
      var already, others := SeparateRefunded(Contents(), itemRequests);
      MoveFulfillmentLines(others, created, target);
      if already != [] {
        var other := target;
        if status != RefundedAndReturned {
          other := CreateFulfillment(RefundedAndReturned);
        }
        MoveFulfillmentLines(already, [], other);
      }
    }

    /** `create_fulfillments_for_returned_products`, without its refund and with the requests split by `replace`. */
    method CreateFulfillmentsForReturnedProducts(replaceLines: seq<LineRequest>, replaceItems: seq<ItemRequest>,
                                                 returnLines: seq<LineRequest>, returnItems: seq<ItemRequest>,
                                                 refund: bool)
      returns (replacement: Option<Quantities>)
      requires LinesExist(Contents(), replaceLines) && LinesExist(Contents(), returnLines)
      requires ItemsExist(items, replaceItems) && ItemsKnown(items, returnItems)
      modifies this
      ensures Contents()
          == ReturnProducts(old(Contents()), replaceLines, replaceItems, returnLines, returnItems, refund)
      ensures replacement == if replaceLines == [] && replaceItems == [] then None
                             else Some(Replacement(old(items), replaceLines, replaceItems))
    {
      replacement := None;
      if replaceLines != [] || replaceItems != [] {
        var loaded := items;
        MoveLinesToReplace(replaceLines, replaceItems);
        var order := CreateReplaceOrder(loaded, replaceLines, replaceItems);
        replacement := Some(order);
      }
      MoveLinesToReturn(returnLines, returnItems, if refund then RefundedAndReturned else Returned);
      DeleteEmptyFulfillments();
    }
  }

  /** `create_replace_order`: the quantities of the lines of the draft order, by the original order line. */
  method CreateReplaceOrder(loaded: seq<Option<Item>>, lineRequests: seq<LineRequest>, itemRequests: seq<ItemRequest>)
    returns (order: Quantities)
    requires ItemsExist(loaded, itemRequests)
    ensures order == Replacement(loaded, lineRequests, itemRequests)
  {
    order := map[];
    var i := 0;
    while i < |lineRequests|
      invariant 0 <= i <= |lineRequests|
      invariant EnterLines(order, lineRequests[i..]) == EnterLines(map[], lineRequests)
    {
      var q := lineRequests[i];
      assert lineRequests[i..][0] == q && lineRequests[i..][1..] == lineRequests[i + 1..];
      order := order[q.line := q.quantity];
      i := i + 1;
    }
    i := 0;
    while i < |itemRequests|
      invariant 0 <= i <= |itemRequests|
      invariant EnterItems(order, loaded, itemRequests[i..]) == Replacement(loaded, lineRequests, itemRequests)
    {
      var q := itemRequests[i];
      assert itemRequests[i..][0] == q && itemRequests[i..][1..] == itemRequests[i + 1..];
      var line := loaded[q.item].value.line;
      if line in order {
        order := order[line := order[line] + q.quantity];
      } else {
        order := order[line := q.quantity];
      }
      i := i + 1;
    }
  }

  /** `_calculate_refund_amount`, which also fills `lines_to_refund`. */
  method CalculateRefundAmount(s: Store, lineRequests: seq<LineRequest>, itemRequests: seq<ItemRequest>,
                               given: Quantities)
    returns (amount: real, lines: Quantities)
    requires LinesExist(s, lineRequests) && RowsOfLines(s, itemRequests)
    ensures amount == RequestedWorth(s.lines, lineRequests) + ReturnedWorth(s, itemRequests)
    ensures Refunds(amount, lines) == RefundAmount(s, lineRequests, itemRequests, given)
  {
    AmountIsPrice(s, lineRequests, itemRequests, given);
    amount, lines := 0.0, given;
    var i := 0;
    while i < |lineRequests|
      invariant 0 <= i <= |lineRequests|
      invariant RefundLines(Refunds(amount, lines), s.lines, lineRequests[i..])
             == RefundLines(Refunds(0.0, given), s.lines, lineRequests)
    {
      var q := lineRequests[i];
      assert lineRequests[i..][0] == q && lineRequests[i..][1..] == lineRequests[i + 1..];
      assert q in lineRequests;
      assert q.quantity as real * s.lines[q.line].price == Worth(s.lines, q.line, q.quantity);
      amount := amount + q.quantity as real * s.lines[q.line].price;
      lines := lines[q.line := q.quantity];
      i := i + 1;
    }
    if itemRequests == [] {
      return;
    }
    i := 0;
    while i < |itemRequests|
      invariant 0 <= i <= |itemRequests|
      invariant RefundItems(Refunds(amount, lines), s, itemRequests[i..])
          == RefundAmount(s, lineRequests, itemRequests, given)
    {
      var q := itemRequests[i];
      assert itemRequests[i..][0] == q && itemRequests[i..][1..] == itemRequests[i + 1..];
      i := i + 1;
      if AlreadyRefunded(s, q) {
        continue;
      }
      assert q in itemRequests;
      var line := s.items[q.item].value.line;
      assert q.quantity as real * s.lines[line].price == Worth(s.lines, line, q.quantity);
      amount := amount + q.quantity as real * s.lines[line].price;
      if line in lines {
        lines := lines[line := lines[line] + q.quantity];
      } else {
        lines := lines[line := q.quantity];
      }
    }
  }

  /** `_process_refund` without the call of the gateway: the amount that is refunded. */
  method ProcessRefund(s: Store, lineRequests: seq<LineRequest>, itemRequests: seq<ItemRequest>, given: Option<real>,
                       shipping: Option<real>, captured: Option<real>)
    returns (amount: real)
    requires LinesExist(s, lineRequests) && RowsOfLines(s, itemRequests)
    ensures amount == ProcessedAmount(s, lineRequests, itemRequests, given, shipping, captured)
    ensures
      var full := if given.Some? then given.value
                  else RequestedWorth(s.lines, lineRequests) + ReturnedWorth(s, itemRequests)
                       + if shipping.Some? then shipping.value else 0.0;
      amount == if full != 0.0 && captured.Some? && captured.value < full then captured.value else full
  {
    if given.Some? {
      amount := given.value;
    } else {
      var lines;
      amount, lines := CalculateRefundAmount(s, lineRequests, itemRequests, map[]);
      assert Refunds(amount, lines).amount == RefundAmount(s, lineRequests, itemRequests, map[]).amount;
      if shipping.Some? {
        amount := amount + shipping.value;
      }
    }
    if amount != 0.0 && captured.Some? {
      amount := MinReal(captured.value, amount);
    }
  }
}
