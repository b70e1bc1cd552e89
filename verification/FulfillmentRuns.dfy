/** Runs of the operations on the fulfillments of an order keep the order lines balanced. */
module FulfillmentRuns {

  import opened Wrappers
  import opened Fulfillment
  import opened FulfillmentMoves
  import opened FulfillmentQuantities

  predicate Good(s: Store) {
    Balanced(s) && WaitingDistinct(s)
  }

  predicate LinesNonNegative(requests: seq<LineRequest>) {
    forall q :: q in requests ==> q.quantity >= 0
  }

  /** A fulfillment that lines may be moved to. */
  predicate Target(s: Store, target: nat) {
    Exists(s, target) && s.fulfillments[target] != Some(Waiting)
  }

  lemma PlacedNonNegative(s: Store)
    requires Placed(s)
    ensures NoneNegative(s.items)
  {
    forall k | 0 <= k < |s.items| && s.items[k].Some? ensures s.items[k].value.quantity >= 0 {
      assert ItemPlaced(s, s.items[k].value);
    }
  }

  // --- Moving ---

  lemma MoveLineKeeps(s: Store, q: LineRequest, target: nat)
    requires Good(s) && Target(s, target)
    requires q.line < |s.lines| && q.quantity >= 0
    ensures Good(MoveLine(s, q, target))
  {
    var r := MoveLine(s, q, target);
    assert LineBalanced(s, q.line);
    forall l | 0 <= l < |r.lines| ensures LineBalanced(r, l) {
      SumAppend(s.items, r.items[|s.items|], OfLine(l));
      assert LineBalanced(s, l);
    }
    forall k | 0 <= k < |r.items| && r.items[k].Some? ensures ItemPlaced(r, r.items[k].value) {
      assert k < |s.items| ==> ItemPlaced(s, s.items[k].value);
    }
    forall j, k | 0 <= j < k < |r.items| && WaitTogether(r, j, k)
      ensures r.items[j].value.line != r.items[k].value.line
    {
      assert WaitTogether(s, j, k);
    }
  }

  /** The total requested of an order line. */
  function AskedOfLine(requests: seq<LineRequest>, l: nat): int {
    if requests == [] then 0
    else (if requests[0].line == l then requests[0].quantity else 0) + AskedOfLine(requests[1..], l)
  }

  lemma AskedOfLineNonNegative(requests: seq<LineRequest>, l: nat)
    requires LinesNonNegative(requests)
    ensures AskedOfLine(requests, l) >= 0
  {
    if requests != [] {
      assert requests[0] in requests;
      AskedOfLineNonNegative(requests[1..], l);
    }
  }

  /** The rows after `n` were added for the target. */
  predicate AddedFor(items: seq<Option<Item>>, n: nat, target: nat) {
    forall k :: n <= k < |items| ==> items[k].Some? && items[k].value.fulfillment == target
  }

  /** Each order line gains, and the target receives, the smaller of what is unfulfilled and what was asked. */
  lemma {:induction false} LinesMoveExactly(s: Store, requests: seq<LineRequest>, target: nat, l: nat)
    requires Good(s) && Target(s, target)
    requires LinesExist(s, requests) && LinesNonNegative(requests)
    requires l < |s.lines|
    ensures
      var r := MoveLines(s, requests, target);
      var moved := Min(s.lines[l].Unfulfilled(), AskedOfLine(requests, l));
      var f := Filter(l, None, Some(target));
      && Good(r)
      && r.fulfillments == s.fulfillments
      && s.items <= r.items
      && AddedFor(r.items, |s.items|, target)
      && r.lines[l] == s.lines[l].(fulfilled := s.lines[l].fulfilled + moved)
      && Sum(r.items, f) == Sum(s.items, f) + moved
    decreases |requests|
  {
    assert LineBalanced(s, l);
    if requests != [] {
      var q := requests[0];
      var next := MoveLine(s, q, target);
      assert q in requests;
      MoveLineKeeps(s, q, target);
      LinesMoveExactly(next, requests[1..], target, l);
      SumAppend(s.items, next.items[|s.items|], Filter(l, None, Some(target)));
      AskedOfLineNonNegative(requests[1..], l);
    }
  }

  lemma {:induction false} LinesKeep(s: Store, requests: seq<LineRequest>, target: nat)
    requires Good(s) && Target(s, target)
    requires LinesExist(s, requests) && LinesNonNegative(requests)
    ensures
      var r := MoveLines(s, requests, target);
      && Good(r)
      && r.fulfillments == s.fulfillments
      && s.items <= r.items
      && AddedFor(r.items, |s.items|, target)
    decreases |requests|
  {
    if requests != [] {
      assert requests[0] in requests;
      MoveLineKeeps(s, requests[0], target);
      LinesKeep(MoveLine(s, requests[0], target), requests[1..], target);
    }
  }

  /** A row that is still there belongs to the fulfillment and the order line it belonged to. */
  predicate RowsStay(before: seq<Option<Item>>, after: seq<Option<Item>>) {
    && |before| <= |after|
    && forall k :: 0 <= k < |before| && after[k].Some? ==>
         && before[k].Some?
         && after[k].value.fulfillment == before[k].value.fulfillment
         && after[k].value.line == before[k].value.line
         && after[k].value.quantity >= 0
         && (after[k].value.quantity == 0 ==> after[k] == before[k])
  }

  lemma TransferStays(items: seq<Option<Item>>, requests: seq<ItemRequest>, listed: seq<nat>, target: nat)
    requires ItemsKnown(items, requests) && AskNonNegative(requests)
    requires Apart(items, requests, listed, target)
    requires NoneNegative(items)
    ensures RowsStay(items, Transfer(items, requests, listed, target))
    ensures AddedFor(Transfer(items, requests, listed, target), |items|, target)
    ensures NoneNegative(Transfer(items, requests, listed, target))
  {
    var r := Transfer(items, requests, listed, target);
    TransferRows(items, requests, listed, target);
    forall k | 0 <= k < |items| && r[k].Some?
      ensures items[k].Some? && r[k].value.fulfillment == items[k].value.fulfillment
      ensures r[k].value.line == items[k].value.line && r[k].value.quantity >= 0
      ensures r[k].value.quantity == 0 ==> r[k] == items[k]
    {
      if k in listed {
        assert Grown(items[k], r[k]);
      } else {
        AskedNonNegative(requests, k);
        assert Settled(items[k], r[k], Asked(requests, k), IsSource(requests, k));
      }
    }
  }

  lemma TransferKeeps(s: Store, requests: seq<ItemRequest>, listed: seq<nat>, target: nat)
    requires Good(s) && Target(s, target)
    requires ItemsKnown(s.items, requests) && AskNonNegative(requests)
    requires Apart(s.items, requests, listed, target) && FromElsewhere(s.items, requests, target)
    ensures Good(s.(items := Transfer(s.items, requests, listed, target)))
    ensures RowsStay(s.items, Transfer(s.items, requests, listed, target))
  {
    var r := s.(items := Transfer(s.items, requests, listed, target));
    PlacedNonNegative(s);
    TransferStays(s.items, requests, listed, target);
    forall l | 0 <= l < |r.lines| ensures LineBalanced(r, l) {
      TransferConserves(s.items, requests, listed, target, OfLine(l));
      assert LineBalanced(s, l);
    }
    forall k | 0 <= k < |r.items| && r.items[k].Some? ensures ItemPlaced(r, r.items[k].value) {
      if k < |s.items| {
        assert ItemPlaced(s, s.items[k].value);
      } else {
        assert r.items[k].value.fulfillment == target;
        TransferRows(s.items, requests, listed, target);
        NewRowsOfLines(s, requests, listed, target, k);
      }
    }
    forall j, k | 0 <= j < k < |r.items| && WaitTogether(r, j, k)
      ensures r.items[j].value.line != r.items[k].value.line
    {
      assert WaitTogether(s, j, k);
    }
  }

  predicate LinesBelow(items: seq<Option<Item>>, n: nat) {
    forall k :: 0 <= k < |items| && items[k].Some? ==> items[k].value.line < n
  }

  /** A created line belongs to an order line. */
  lemma {:induction false} CreatedLines(m: Moving, requests: seq<ItemRequest>, listed: seq<nat>, target: nat, n: nat)
    requires ItemsKnown(m.items, requests)
    requires LinesBelow(m.items, n)
    ensures LinesBelow(MoveItems(m, requests, listed, target).items, n)
    decreases |requests|
  {
    if requests != [] {
      var q := requests[0];
      assert q in requests;
      if m.items[q.item].Some? {
        var source := m.items[q.item].value;
        var after := Gain(m.items, listed, source, target, Min(source.quantity, q.quantity));
        assert LinesBelow(after, n);
        assert LinesBelow(Add(after, q.item, -Min(source.quantity, q.quantity)), n);
      }
      CreatedLines(MoveItem(m, q, listed, target), requests[1..], listed, target, n);
    }
  }

  lemma NewRowsOfLines(s: Store, requests: seq<ItemRequest>, listed: seq<nat>, target: nat, k: nat)
    requires Placed(s)
    requires ItemsKnown(s.items, requests)
    requires k < |Transfer(s.items, requests, listed, target)|
    requires Transfer(s.items, requests, listed, target)[k].Some?
    ensures Transfer(s.items, requests, listed, target)[k].value.line < |s.lines|
  {
    forall i | 0 <= i < |s.items| && s.items[i].Some? ensures s.items[i].value.line < |s.lines| {
      assert ItemPlaced(s, s.items[i].value);
    }
    CreatedLines(Moving(s.items, {}), requests, listed, target, |s.lines|);
    var m := MoveItems(Moving(s.items, {}), requests, listed, target);
    assert Delete(m.items, m.emptied)[k] == m.items[k];
  }

  // --- The operations ---

  lemma AddFulfillmentKeeps(s: Store, status: Status)
    requires Good(s)
    ensures Good(AddFulfillment(s, status))
  {
    var r := AddFulfillment(s, status);
    forall l | 0 <= l < |r.lines| ensures LineBalanced(r, l) {
      assert LineBalanced(s, l);
    }
    forall k | 0 <= k < |r.items| && r.items[k].Some? ensures ItemPlaced(r, r.items[k].value) {
      assert ItemPlaced(s, s.items[k].value);
    }
    forall j, k | 0 <= j < k < |r.items| && WaitTogether(r, j, k)
      ensures r.items[j].value.line != r.items[k].value.line
    {
      assert ItemPlaced(s, s.items[j].value);
      assert WaitTogether(s, j, k);
    }
  }

  lemma DropEmptyKeeps(s: Store)
    requires Good(s)
    ensures Good(DropEmpty(s))
  {
    var r := DropEmpty(s);
    forall l | 0 <= l < |r.lines| ensures LineBalanced(r, l) {
      assert LineBalanced(s, l);
    }
    forall k | 0 <= k < |r.items| && r.items[k].Some?
      ensures ItemPlaced(r, r.items[k].value)
      ensures r.fulfillments[r.items[k].value.fulfillment] == s.fulfillments[r.items[k].value.fulfillment]
    {
      assert ItemPlaced(s, s.items[k].value);
      assert !IsEmpty(s, s.items[k].value.fulfillment);
    }
    forall j, k | 0 <= j < k < |r.items| && WaitTogether(r, j, k)
      ensures r.items[j].value.line != r.items[k].value.line
    {
      assert WaitTogether(s, j, k);
    }
  }

  /** What the caller of a move provides. */
  predicate Requests(s: Store, lineRequests: seq<LineRequest>, itemRequests: seq<ItemRequest>) {
    && LinesExist(s, lineRequests) && LinesNonNegative(lineRequests)
    && ItemsKnown(s.items, itemRequests) && AskNonNegative(itemRequests)
  }

  /** Nothing is in a fulfillment before it was created. */
  lemma FreshTarget(s: Store, moved: Store, requests: seq<ItemRequest>, target: nat)
    requires Placed(s) && target >= |s.fulfillments|
    requires s.items <= moved.items && AddedFor(moved.items, |s.items|, target)
    requires ItemsKnown(s.items, requests)
    ensures Apart(moved.items, requests, Keys(|s.items|, |moved.items|), target)
    ensures FromElsewhere(moved.items, requests, target)
  {
    forall q | q in requests && moved.items[q.item].Some? ensures moved.items[q.item].value.fulfillment != target {
      assert moved.items[q.item] == s.items[q.item];
      assert ItemPlaced(s, s.items[q.item].value);
    }
  }

  lemma MoveBothKeeps(s: Store, lineRequests: seq<LineRequest>, itemRequests: seq<ItemRequest>, status: Status)
    requires Good(s) && Requests(s, lineRequests, itemRequests)
    requires status != Waiting
    ensures Good(MoveBoth(AddFulfillment(s, status), lineRequests, itemRequests, |s.fulfillments|))
  {
    var target := |s.fulfillments|;
    var start := AddFulfillment(s, status);
    var moved := MoveLines(start, lineRequests, target);
    AddFulfillmentKeeps(s, status);
    LinesKeep(start, lineRequests, target);
    FreshTarget(s, moved, itemRequests, target);
    TransferKeeps(moved, itemRequests, Keys(|s.items|, |moved.items|), target);
  }

  lemma ReturnKeeps(s: Store, lineRequests: seq<LineRequest>, itemRequests: seq<ItemRequest>, status: Status)
    requires Good(s) && Requests(s, lineRequests, itemRequests)
    requires status != Waiting
    ensures Good(Return(s, lineRequests, itemRequests, status))
  {
    var target := |s.fulfillments|;
    var start := AddFulfillment(s, status);
    var moved := MoveLines(start, lineRequests, target);
    AddFulfillmentKeeps(s, status);
    LinesKeep(start, lineRequests, target);
    var others := Pick(moved, itemRequests, false);
    var already := Pick(moved, itemRequests, true);
    var listed := Keys(|s.items|, |moved.items|);
    FreshTarget(s, moved, others, target);
    TransferKeeps(moved, others, listed, target);
    var rest := moved.(items := Transfer(moved.items, others, listed, target));
    if already != [] {
      var there := if status == RefundedAndReturned then rest else AddFulfillment(rest, RefundedAndReturned);
      var other := if status == RefundedAndReturned then target else target + 1;
      if status != RefundedAndReturned {
        AddFulfillmentKeeps(rest, RefundedAndReturned);
      }
      forall q | q in already && there.items[q.item].Some? ensures there.items[q.item].value.fulfillment != other {
        assert moved.items[q.item] == s.items[q.item];
        assert ItemPlaced(s, s.items[q.item].value);
      }
      TransferKeeps(there, already, [], other);
    }
  }

  lemma ApproveKeeps(s: Store, fulfillment: nat, exceed: bool, enough: bool)
    requires Good(s) && Exists(s, fulfillment)
    ensures Good(Approve(s, fulfillment, exceed, enough))
  {
    var r := Approve(s, fulfillment, exceed, enough);
    forall l | 0 <= l < |r.lines| ensures LineBalanced(r, l) {
      assert LineBalanced(s, l);
    }
    forall k | 0 <= k < |r.items| && r.items[k].Some? ensures ItemPlaced(r, r.items[k].value) {
      assert ItemPlaced(s, s.items[k].value);
    }
    forall j, k | 0 <= j < k < |r.items| && WaitTogether(r, j, k)
      ensures r.items[j].value.line != r.items[k].value.line
    {
      assert WaitTogether(s, j, k);
    }
  }

  lemma CancelKeeps(s: Store, fulfillment: nat, loaded: seq<nat>)
    requires Good(s) && fulfillment < |s.fulfillments| && s.fulfillments[fulfillment] == Some(Waiting)
    requires Loads(s, fulfillment, loaded)
    ensures AllPresent(s.items, loaded) && forall i :: i in Rows(s.items, loaded) ==> i.line < |s.lines|
    ensures Good(CancelWaiting(s, fulfillment, loaded))
  {
    CancelKeepsBalance(s, fulfillment, loaded);
    forall a, b | 0 <= a < b < |loaded|
      ensures loaded[a] in loaded && loaded[b] in loaded
      ensures s.items[loaded[a]].value.line != s.items[loaded[b]].value.line
    {
      assert loaded[a] in loaded && loaded[b] in loaded;
      assert WaitTogether(s, loaded[a], loaded[b]) && WaitTogether(s, loaded[b], loaded[a]);
    }
    var r := CancelWaiting(s, fulfillment, loaded);
    forall j, k | 0 <= j < k < |r.items| && WaitTogether(r, j, k)
      ensures r.items[j].value.line != r.items[k].value.line
    {
      assert WaitTogether(s, j, k);
    }
  }

  // --- Runs ---

  datatype Step =
    | CreateFulfillments(batches: seq<Batch>, approved: bool, stocks: Stocks, exceed: bool)
    | ApproveFulfillment(fulfillment: nat, exceed: bool, enough: bool)
    | CancelWaitingFulfillment(fulfillment: nat, loaded: seq<nat>)
    | RefundProducts(lineRequests: seq<LineRequest>, itemRequests: seq<ItemRequest>)
    | ReplaceAndReturn(replaceLines: seq<LineRequest>, replaceItems: seq<ItemRequest>,
                       returnLines: seq<LineRequest>, returnItems: seq<ItemRequest>, refund: bool)

  /** What the callers in the API check before a step. */
  ghost predicate Allowed(s: Store, step: Step) {
    match step
    case CreateFulfillments(batches, approved, stocks, exceed) =>
      && BatchesExist(s, batches)
      && WithinUnfulfilled(s, batches)
      && (!approved ==> forall b :: b in batches ==> DistinctLines(b.requests))
    case ApproveFulfillment(fulfillment, _, _) => Exists(s, fulfillment)
    case CancelWaitingFulfillment(fulfillment, loaded) =>
      && fulfillment < |s.fulfillments| && s.fulfillments[fulfillment] == Some(Waiting)
      && Loads(s, fulfillment, loaded)
      && AllPresent(s.items, loaded) && forall i :: i in Rows(s.items, loaded) ==> i.line < |s.lines|
    case RefundProducts(lineRequests, itemRequests) => Requests(s, lineRequests, itemRequests)
    case ReplaceAndReturn(replaceLines, replaceItems, returnLines, returnItems, _) =>
      Requests(s, replaceLines, replaceItems) && Requests(s, returnLines, returnItems)
  }

  ghost function Next(s: Store, step: Step): Store
    requires Allowed(s, step)
  {
    match step
    case CreateFulfillments(batches, approved, stocks, exceed) => Create(s, batches, approved, stocks, exceed)
    case ApproveFulfillment(fulfillment, exceed, enough) => Approve(s, fulfillment, exceed, enough)
    case CancelWaitingFulfillment(fulfillment, loaded) => CancelWaiting(s, fulfillment, loaded)
    case RefundProducts(lineRequests, itemRequests) => Refund(s, lineRequests, itemRequests)
    case ReplaceAndReturn(replaceLines, replaceItems, returnLines, returnItems, refund) =>
      ReturnProducts(s, replaceLines, replaceItems, returnLines, returnItems, refund)
  }

  lemma ReturnProductsKeeps(s: Store, replaceLines: seq<LineRequest>, replaceItems: seq<ItemRequest>,
                            returnLines: seq<LineRequest>, returnItems: seq<ItemRequest>, refund: bool)
    requires Good(s) && Requests(s, replaceLines, replaceItems) && Requests(s, returnLines, returnItems)
    ensures Good(ReturnProducts(s, replaceLines, replaceItems, returnLines, returnItems, refund))
  {
    var replaced := if replaceLines == [] && replaceItems == [] then s else Replace(s, replaceLines, replaceItems);
    MoveBothKeeps(s, replaceLines, replaceItems, Replaced);
    var status := if refund then RefundedAndReturned else Returned;
    ReturnKeeps(replaced, returnLines, returnItems, status);
    DropEmptyKeeps(Return(replaced, returnLines, returnItems, status));
  }

  lemma CreateKeeps(s: Store, batches: seq<Batch>, approved: bool, stocks: Stocks, exceed: bool)
    requires Good(s) && Allowed(s, CreateFulfillments(batches, approved, stocks, exceed))
    ensures Good(Create(s, batches, approved, stocks, exceed))
  {
    CreateKeepsBalance(s, batches, approved, stocks, exceed);
    BatchesDistinct(s, batches, StatusFor(approved), stocks);
  }

  lemma StepKeeps(s: Store, step: Step)
    requires Good(s) && Allowed(s, step)
    ensures Good(Next(s, step))
  {
    match step
    case CreateFulfillments(batches, approved, stocks, exceed) =>
      CreateKeeps(s, batches, approved, stocks, exceed);
    case ApproveFulfillment(fulfillment, exceed, enough) => ApproveKeeps(s, fulfillment, exceed, enough);
    case CancelWaitingFulfillment(fulfillment, loaded) => CancelKeeps(s, fulfillment, loaded);
    case RefundProducts(lineRequests, itemRequests) =>
      MoveBothKeeps(s, lineRequests, itemRequests, Refunded);
      DropEmptyKeeps(MoveBoth(AddFulfillment(s, Refunded), lineRequests, itemRequests, |s.fulfillments|));
    case ReplaceAndReturn(replaceLines, replaceItems, returnLines, returnItems, refund) =>
      ReturnProductsKeeps(s, replaceLines, replaceItems, returnLines, returnItems, refund);
  }

  ghost predicate IsRun(states: seq<Store>, steps: seq<Step>) {
    && |states| == |steps| + 1
    && forall i :: 0 <= i < |steps| ==> Allowed(states[i], steps[i]) && states[i + 1] == Next(states[i], steps[i])
  }

  /** Between zero and the ordered quantity, and equal to the sum of the fulfillment lines, after every step. */
  lemma {:induction false} RunsStayBalanced(states: seq<Store>, steps: seq<Step>, n: nat)
    requires IsRun(states, steps)
    requires Good(states[0])
    requires n < |states|
    ensures Balanced(states[n]) && WaitingDistinct(states[n])
  {
    if n > 0 {
      RunsStayBalanced(states, steps, n - 1);
      StepKeeps(states[n - 1], steps[n - 1]);
    }
  }
}
