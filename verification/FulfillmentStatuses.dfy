/** The statuses of new fulfillments, the empty ones that go, and the rows that are merged. */
module FulfillmentStatuses {

  import opened Wrappers
  import opened Fulfillment
  import opened FulfillmentMoves
  import opened FulfillmentQuantities
  import opened FulfillmentRuns
  import opened FulfillmentRefunds
  import opened FulfillmentReturns

  /** A fulfilled fulfillment, or one that waits for approval, goes exactly when no row is in it; others stay. */
  predicate EmptyOnesGo(before: seq<Option<Status>>, items: seq<Option<Item>>, after: seq<Option<Status>>) {
    && |after| == |before|
    && forall f :: 0 <= f < |before| ==>
         var empty := forall k :: 0 <= k < |items| && items[k].Some? ==> items[k].value.fulfillment != f;
         after[f] == if empty && (before[f] == Some(Fulfilled) || before[f] == Some(Waiting)) then None else before[f]
  }

  lemma DropsEmptyOnes(s: Store)
    ensures EmptyOnesGo(s.fulfillments, s.items, DropEmpty(s).fulfillments)
  {
    forall f | 0 <= f < |s.fulfillments|
      ensures IsEmpty(s, f) <==>
        forall k :: 0 <= k < |s.items| && s.items[k].Some? ==> s.items[k].value.fulfillment != f
    {
    }
  }

  lemma BothMovesKeepFulfillments(s: Store, lineRequests: seq<LineRequest>, itemRequests: seq<ItemRequest>, target: nat)
    requires LinesExist(s, lineRequests) && ItemsKnown(s.items, itemRequests)
    ensures MoveBoth(s, lineRequests, itemRequests, target).fulfillments == s.fulfillments
  {
    LinesMoved(s, lineRequests, target);
  }

  /** A fulfillment that is cancelled before its approval is gone with its rows, and no other. */
  lemma CancelledIsGone(s: Store, fulfillment: nat, loaded: seq<nat>)
    requires Exists(s, fulfillment) && AllPresent(s.items, loaded)
    requires forall i :: i in Rows(s.items, loaded) ==> i.line < |s.lines|
    ensures
      var r := CancelWaiting(s, fulfillment, loaded);
      && |r.fulfillments| == |s.fulfillments| && |r.items| == |s.items|
      && (forall f :: 0 <= f < |r.fulfillments| ==>
            r.fulfillments[f] == if f == fulfillment then None else s.fulfillments[f])
      && forall k :: 0 <= k < |r.items| ==>
           r.items[k] == if s.items[k].Some? && s.items[k].value.fulfillment == fulfillment then None else s.items[k]
  {
  }

  /** A refund makes one refunded fulfillment. */
  lemma RefundStatuses(s: Store, lineRequests: seq<LineRequest>, itemRequests: seq<ItemRequest>)
    requires LinesExist(s, lineRequests) && ItemsKnown(s.items, itemRequests)
    ensures
      var r := Refund(s, lineRequests, itemRequests);
      EmptyOnesGo(s.fulfillments + [Some(Refunded)], r.items, r.fulfillments)
  {
    var start := AddFulfillment(s, Refunded);
    BothMovesKeepFulfillments(start, lineRequests, itemRequests, |s.fulfillments|);
    DropsEmptyOnes(MoveBoth(start, lineRequests, itemRequests, |s.fulfillments|));
  }

  lemma ReplaceStatuses(s: Store, lineRequests: seq<LineRequest>, itemRequests: seq<ItemRequest>)
    requires LinesExist(s, lineRequests) && ItemsKnown(s.items, itemRequests)
    ensures Replace(s, lineRequests, itemRequests).fulfillments == s.fulfillments + [Some(Replaced)]
  {
    BothMovesKeepFulfillments(AddFulfillment(s, Replaced), lineRequests, itemRequests, |s.fulfillments|);
  }

  lemma SameRefunded(s: Store, moved: Store, requests: seq<ItemRequest>, status: Status)
    requires status == Returned || status == RefundedAndReturned
    requires ItemsKnown(s.items, requests) && s.items <= moved.items
    requires moved.fulfillments == s.fulfillments + [Some(status)]
    ensures Pick(moved, requests, true) != [] <==> ReturnsRefunded(s, requests)
  {
    Picked(moved, requests, true);
    forall q | q in requests
      ensures AlreadyRefunded(moved, q) <==> s.items[q.item].Some? && InRefunded(s, s.items[q.item].value)
    {
      assert moved.items[q.item] == s.items[q.item];
    }
    if Pick(moved, requests, true) != [] {
      var q := Pick(moved, requests, true)[0];
      assert q in Pick(moved, requests, true);
    }
  }

  /** A return makes one returned fulfillment, refunded with it or not; rows that were refunded before get one that is
      both, which is the same when the return refunds. */
  lemma ReturnStatuses(s: Store, lineRequests: seq<LineRequest>, itemRequests: seq<ItemRequest>, refund: bool)
    requires LinesExist(s, lineRequests) && ItemsKnown(s.items, itemRequests)
    ensures
      Return(s, lineRequests, itemRequests, if refund then RefundedAndReturned else Returned).fulfillments
      == s.fulfillments
         + if refund then [Some(RefundedAndReturned)]
           else if ReturnsRefunded(s, itemRequests) then [Some(Returned), Some(RefundedAndReturned)]
           else [Some(Returned)]
  {
    var status := if refund then RefundedAndReturned else Returned;
    var start := AddFulfillment(s, status);
    LinesMoved(start, lineRequests, |s.fulfillments|);
    SameRefunded(s, MoveLines(start, lineRequests, |s.fulfillments|), itemRequests, status);
  }

  /** Replacing makes a replaced fulfillment first, when anything is to be replaced. */
  lemma ReturnProductsStatuses(s: Store, replaceLines: seq<LineRequest>, replaceItems: seq<ItemRequest>,
                               returnLines: seq<LineRequest>, returnItems: seq<ItemRequest>, refund: bool)
    requires LinesExist(s, replaceLines) && LinesExist(s, returnLines)
    requires ItemsKnown(s.items, replaceItems) && ItemsKnown(s.items, returnItems)
    ensures
      var any := replaceLines != [] || replaceItems != [];
      var replaced := if any then Replace(s, replaceLines, replaceItems) else s;
      var r := ReturnProducts(s, replaceLines, replaceItems, returnLines, returnItems, refund);
      EmptyOnesGo(s.fulfillments
                  + (if any then [Some(Replaced)] else [])
                  + (if refund then [Some(RefundedAndReturned)]
                     else if ReturnsRefunded(replaced, returnItems) then [Some(Returned), Some(RefundedAndReturned)]
                     else [Some(Returned)]),
                  r.items, r.fulfillments)
  {
    var any := replaceLines != [] || replaceItems != [];
    var replaced := if any then Replace(s, replaceLines, replaceItems) else s;
    var returned := Return(replaced, returnLines, returnItems, if refund then RefundedAndReturned else Returned);
    assert replaced.fulfillments == s.fulfillments + (if any then [Some(Replaced)] else []) by {
      ReplaceStatuses(s, replaceLines, replaceItems);
    }
    ReturnStatuses(replaced, returnLines, returnItems, refund);
    DropsEmptyOnes(returned);
    assert ReturnProducts(s, replaceLines, replaceItems, returnLines, returnItems, refund) == DropEmpty(returned);
  }

  // --- Rows that are merged ---

  /** Order lines come without a stock. */
  lemma {:induction false} MovedWithoutStock(s: Store, requests: seq<LineRequest>, target: nat)
    requires LinesExist(s, requests)
    ensures
      var r := MoveLines(s, requests, target);
      && s.items <= r.items
      && forall k :: |s.items| <= k < |r.items| ==>
           r.items[k].Some? && r.items[k].value.stock.None? && r.items[k].value.fulfillment == target
    decreases |requests|
  {
    if requests != [] {
      var next := MoveLine(s, requests[0], target);
      MovedWithoutStock(next, requests[1..], target);
      var r := MoveLines(s, requests, target);
      forall k | |s.items| <= k < |r.items|
        ensures r.items[k].Some? && r.items[k].value.stock.None? && r.items[k].value.fulfillment == target
      {
        if k == |s.items| {
          assert next.items[k] == r.items[k];
        }
      }
    }
  }

  /** A fulfillment line that comes to the new fulfillment gets a row of its own only if no order line was moved there
      that is of the same order line and without a stock as well. */
  lemma NewFulfillmentMerges(s: Store, lineRequests: seq<LineRequest>, itemRequests: seq<ItemRequest>, status: Status)
    requires Good(s) && Requests(s, lineRequests, itemRequests) && status != Waiting
    ensures
      var start := AddFulfillment(s, status);
      var moved := MoveLines(start, lineRequests, |s.fulfillments|);
      var r := MoveBoth(start, lineRequests, itemRequests, |s.fulfillments|);
      && |s.items| <= |moved.items| <= |r.items|
      && forall j, k :: |s.items| <= j < |moved.items| <= k < |r.items| && moved.items[j].Some? && r.items[k].Some? ==>
           !SameKind(moved.items[j].value, r.items[k].value)
  {
    var target, start := |s.fulfillments|, AddFulfillment(s, status);
    var moved := MoveLines(start, lineRequests, target);
    AddFulfillmentKeeps(s, status);
    LinesKeep(start, lineRequests, target);
    FreshTarget(s, moved, itemRequests, target);
    PlacedNonNegative(moved);
    var listed := Keys(|s.items|, |moved.items|);
    MergesWhenItCan(Moving(moved.items, {}), itemRequests, listed, target);
    var all := MoveItems(Moving(moved.items, {}), itemRequests, listed, target);
    var r := MoveBoth(start, lineRequests, itemRequests, target);
    forall j, k | |s.items| <= j < |moved.items| <= k < |r.items| && moved.items[j].Some? && r.items[k].Some?
      ensures !SameKind(moved.items[j].value, r.items[k].value)
    {
      assert r.items[k] == all.items[k];
      assert j in listed && Unlisted(moved.items, listed, all.items[k].value);
    }
  }
}
