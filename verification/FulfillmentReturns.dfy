/** Where returned lines end up: lines that were refunded before go to a fulfillment of their own. */
module FulfillmentReturns {

  import opened Wrappers
  import opened Fulfillment
  import opened FulfillmentMoves
  import opened FulfillmentQuantities
  import opened FulfillmentRuns
  import opened FulfillmentRefunds

  /** No source is in this fulfillment. */
  predicate NoneFrom(items: seq<Option<Item>>, requests: seq<ItemRequest>, fulfillment: nat)
    requires ItemsKnown(items, requests)
  {
    forall q :: q in requests && items[q.item].Some? ==> items[q.item].value.fulfillment != fulfillment
  }

  /** A fulfillment that is neither the target nor has a source keeps its totals. */
  lemma {:induction false} OthersStay(m: Moving, requests: seq<ItemRequest>, listed: seq<nat>, target: nat, f: Filter)
    requires ItemsKnown(m.items, requests)
    requires Apart(m.items, requests, listed, target)
    requires NoneNegative(m.items) && AskNonNegative(requests)
    requires f.fulfillment.Some? && f.fulfillment.value != target && NoneFrom(m.items, requests, f.fulfillment.value)
    ensures Sum(MoveItems(m, requests, listed, target).items, f) == Sum(m.items, f)
    decreases |requests|
  {
    if requests != [] {
      var q := requests[0];
      assert q in requests;
      RequestRows(m, q, listed, target);
      RequestMoves(m, q, listed, target, f);
      OthersStay(MoveItem(m, q, listed, target), requests[1..], listed, target, f);
    }
  }

  lemma TransferElsewhere(items: seq<Option<Item>>, requests: seq<ItemRequest>, listed: seq<nat>, target: nat,
                          f: Filter)
    requires ItemsKnown(items, requests)
    requires Apart(items, requests, listed, target)
    requires NoneNegative(items) && AskNonNegative(requests)
    requires f.fulfillment.Some? && f.fulfillment.value != target && NoneFrom(items, requests, f.fulfillment.value)
    ensures Sum(Transfer(items, requests, listed, target), f) == Sum(items, f)
  {
    var m := MoveItems(Moving(items, {}), requests, listed, target);
    OthersStay(Moving(items, {}), requests, listed, target, f);
    EmptiedSources(Moving(items, {}), requests, listed, target);
    DeleteSums(m.items, m.emptied, f);
  }

  /** What is taken depends only on the rows that are asked for. */
  lemma {:induction false} TakenFromSame(items: seq<Option<Item>>, more: seq<Option<Item>>, requests: seq<ItemRequest>,
                                         f: Filter, n: nat)
    requires n <= |items| && n <= |more|
    requires NoneNegative(items) && NoneNegative(more)
    requires forall k :: 0 <= k < n && Asked(requests, k) != 0 ==> items[k] == more[k]
    ensures TakenAll(items, requests, f, n) == TakenAll(more, requests, f, n)
  {
    if n > 0 {
      TakenFromSame(items, more, requests, f, n - 1);
    }
  }

  /** What `_move_lines_to_return_fulfillment` has done before it moves the lines that were refunded before. */
  lemma ReturnFirst(s: Store, lineRequests: seq<LineRequest>, others: seq<ItemRequest>, status: Status, l: nat)
    requires Good(s) && Requests(s, lineRequests, others)
    requires status != Waiting && l < |s.lines|
    ensures
      var target := |s.fulfillments|;
      var rest := MoveBoth(AddFulfillment(s, status), lineRequests, others, target);
      && Good(rest)
      && rest.fulfillments == s.fulfillments + [Some(status)]
      && Sum(rest.items, InFulfillment(l, target))
         == Min(s.lines[l].Unfulfilled(), AskedOfLine(lineRequests, l))
             + TakenAll(s.items, others, OfLine(l), |s.items|)
      && Sum(rest.items, InFulfillment(l, target + 1)) == 0
  {
    var target := |s.fulfillments|;
    var start := AddFulfillment(s, status);
    var moved := MoveLines(start, lineRequests, target);
    MoveBothKeeps(s, lineRequests, others, status);
    MovedQuantity(s, lineRequests, others, status, l);
    var rest := MoveBoth(start, lineRequests, others, target);
    AddFulfillmentKeeps(s, status);
    LinesKeep(start, lineRequests, target);
    forall k | 0 <= k < |rest.items| && rest.items[k].Some?
      ensures !Matches(InFulfillment(l, target + 1), rest.items[k].value)
    {
      assert ItemPlaced(rest, rest.items[k].value);
    }
    NothingThere(rest.items, InFulfillment(l, target + 1));
  }

  /** The rows of the other requests are what they were. */
  lemma ReturnRows(s: Store, lineRequests: seq<LineRequest>, others: seq<ItemRequest>, status: Status, k: nat)
    requires Good(s) && Requests(s, lineRequests, others)
    requires status != Waiting
    requires k < |s.items| && !IsSource(others, k)
    ensures MoveBoth(AddFulfillment(s, status), lineRequests, others, |s.fulfillments|).items[k] == s.items[k]
  {
    var target := |s.fulfillments|;
    var start := AddFulfillment(s, status);
    var moved := MoveLines(start, lineRequests, target);
    AddFulfillmentKeeps(s, status);
    LinesKeep(start, lineRequests, target);
    FreshTarget(s, moved, others, target);
    PlacedNonNegative(moved);
    TransferRows(moved.items, others, Keys(|s.items|, |moved.items|), target);
    AskedNonNegative(others, k);
    assert Settled(moved.items[k], Transfer(moved.items, others, Keys(|s.items|, |moved.items|), target)[k],
                   Asked(others, k), IsSource(others, k));
  }

  lemma {:induction false} PickSame(s: Store, t: Store, requests: seq<ItemRequest>, refunded: bool)
    requires ItemsKnown(s.items, requests) && ItemsKnown(t.items, requests)
    requires forall q :: q in requests ==> AlreadyRefunded(s, q) == AlreadyRefunded(t, q)
    ensures Pick(s, requests, refunded) == Pick(t, requests, refunded)
  {
    if requests != [] {
      assert requests[0] in requests;
      PickSame(s, t, requests[1..], refunded);
    }
  }

  lemma {:induction false} Picked(s: Store, requests: seq<ItemRequest>, refunded: bool)
    requires ItemsKnown(s.items, requests)
    ensures forall q :: q in Pick(s, requests, refunded) <==> q in requests && AlreadyRefunded(s, q) == refunded
  {
    if requests != [] {
      assert requests[0] in requests;
      Picked(s, requests[1..], refunded);
    }
  }

  /** The requests are picked by the status before the return. */
  lemma PickedBefore(s: Store, lineRequests: seq<LineRequest>, requests: seq<ItemRequest>, status: Status)
    requires Good(s) && Requests(s, lineRequests, requests)
    requires status != Waiting && status != Refunded
    ensures |s.items| <= |MoveLines(AddFulfillment(s, status), lineRequests, |s.fulfillments|).items|
    ensures forall refunded ::
      Pick(MoveLines(AddFulfillment(s, status), lineRequests, |s.fulfillments|), requests, refunded)
      == Pick(s, requests, refunded)
  {
    var target := |s.fulfillments|;
    var start := AddFulfillment(s, status);
    var moved := MoveLines(start, lineRequests, target);
    AddFulfillmentKeeps(s, status);
    LinesKeep(start, lineRequests, target);
    forall q | q in requests ensures AlreadyRefunded(s, q) == AlreadyRefunded(moved, q) {
      assert moved.items[q.item] == s.items[q.item];
      assert s.items[q.item].Some? ==> ItemPlaced(s, s.items[q.item].value);
    }
    PickSame(s, moved, requests, true);
    PickSame(s, moved, requests, false);
  }

  lemma PickedRequests(s: Store, lineRequests: seq<LineRequest>, requests: seq<ItemRequest>, refunded: bool)
    requires Requests(s, lineRequests, requests)
    ensures Requests(s, lineRequests, Pick(s, requests, refunded))
  {
  }

  /** What is taken from the rows of an order line among the first `n`, of those in refunded fulfillments or the
      others. */
  function TakenWhere(s: Store, requests: seq<ItemRequest>, refunded: bool, l: nat, n: nat): int
    requires n <= |s.items|
  {
    if n == 0 then 0
    else
      TakenWhere(s, requests, refunded, l, n - 1)
      + match s.items[n - 1]
        case Some(row) =>
          if row.line == l && InRefunded(s, row) == refunded then Min(row.quantity, Asked(requests, n - 1)) else 0
        case None => 0
  }

  lemma {:induction false} AskedOfPicked(s: Store, requests: seq<ItemRequest>, refunded: bool, k: nat)
    requires ItemsKnown(s.items, requests) && k < |s.items|
    ensures Asked(Pick(s, requests, refunded), k)
         == if (s.items[k].Some? && InRefunded(s, s.items[k].value)) == refunded then Asked(requests, k) else 0
  {
    if requests != [] {
      var q := requests[0];
      assert q in requests;
      AskedOfPicked(s, requests[1..], refunded, k);
      if AlreadyRefunded(s, q) == refunded {
        assert Pick(s, requests, refunded)[1..] == Pick(s, requests[1..], refunded);
      } else {
        assert Pick(s, requests, refunded) == Pick(s, requests[1..], refunded);
      }
    }
  }

  lemma {:induction false} PickedAreTaken(s: Store, requests: seq<ItemRequest>, refunded: bool, l: nat, n: nat)
    requires ItemsKnown(s.items, requests) && NoneNegative(s.items) && n <= |s.items|
    ensures TakenAll(s.items, Pick(s, requests, refunded), OfLine(l), n) == TakenWhere(s, requests, refunded, l, n)
  {
    if n > 0 {
      PickedAreTaken(s, requests, refunded, l, n - 1);
      AskedOfPicked(s, requests, refunded, n - 1);
    }
  }

  /** A request for a row of a fulfillment that was refunded before. */
  predicate ReturnsRefunded(s: Store, requests: seq<ItemRequest>) {
    exists q :: q in requests && q.item < |s.items| && s.items[q.item].Some? && InRefunded(s, s.items[q.item].value)
  }

  lemma NonePicked(s: Store, requests: seq<ItemRequest>)
    requires ItemsKnown(s.items, requests)
    ensures Pick(s, requests, true) != [] <==> ReturnsRefunded(s, requests)
  {
    Picked(s, requests, true);
    if Pick(s, requests, true) != [] {
      var q := Pick(s, requests, true)[0];
      assert q in Pick(s, requests, true);
      assert InRefunded(s, s.items[q.item].value);
    }
    if ReturnsRefunded(s, requests) {
      var q :| q in requests && q.item < |s.items| && s.items[q.item].Some? && InRefunded(s, s.items[q.item].value);
      assert AlreadyRefunded(s, q);
    }
  }

  /** The new fulfillment gets the order lines and the rows not refunded before; the others get one that is both. */
  lemma ReturnDestinations(s: Store, lineRequests: seq<LineRequest>, itemRequests: seq<ItemRequest>, status: Status,
                           l: nat)
    requires Good(s) && Requests(s, lineRequests, itemRequests)
    requires status == Returned || status == RefundedAndReturned
    requires l < |s.lines|
    ensures
      var target := |s.fulfillments|;
      var r := Return(s, lineRequests, itemRequests, status);
      var already := TakenWhere(s, itemRequests, true, l, |s.items|);
      var others := TakenWhere(s, itemRequests, false, l, |s.items|);
      var moved := Min(s.lines[l].Unfulfilled(), AskedOfLine(lineRequests, l));
      var apart := status == Returned && ReturnsRefunded(s, itemRequests);
      && r.fulfillments == s.fulfillments + [Some(status)] + (if apart then [Some(RefundedAndReturned)] else [])
      && Sum(r.items, InFulfillment(l, target)) == moved + others + (if apart then 0 else already)
      && (apart ==> Sum(r.items, InFulfillment(l, target + 1)) == already)
  {
    PickedDestinations(s, lineRequests, itemRequests, status, l);
    PlacedNonNegative(s);
    PickedAreTaken(s, itemRequests, true, l, |s.items|);
    PickedAreTaken(s, itemRequests, false, l, |s.items|);
    NonePicked(s, itemRequests);
  }

  lemma PickedDestinations(s: Store, lineRequests: seq<LineRequest>, itemRequests: seq<ItemRequest>, status: Status,
                           l: nat)
    requires Good(s) && Requests(s, lineRequests, itemRequests)
    requires status == Returned || status == RefundedAndReturned
    requires l < |s.lines|
    ensures
      var target := |s.fulfillments|;
      var r := Return(s, lineRequests, itemRequests, status);
      var already := TakenAll(s.items, Pick(s, itemRequests, true), OfLine(l), |s.items|);
      var others := TakenAll(s.items, Pick(s, itemRequests, false), OfLine(l), |s.items|);
      var moved := Min(s.lines[l].Unfulfilled(), AskedOfLine(lineRequests, l));
      var apart := status == Returned && Pick(s, itemRequests, true) != [];
      && r.fulfillments == s.fulfillments + [Some(status)] + (if apart then [Some(RefundedAndReturned)] else [])
      && Sum(r.items, InFulfillment(l, target)) == moved + others + (if apart then 0 else already)
      && (apart ==> Sum(r.items, InFulfillment(l, target + 1)) == already)
  {
    var target := |s.fulfillments|;
    var already := Pick(s, itemRequests, true);
    var others := Pick(s, itemRequests, false);
    PickedBefore(s, lineRequests, itemRequests, status);
    PickedRequests(s, lineRequests, itemRequests, false);
    ReturnFirst(s, lineRequests, others, status, l);
    var rest := MoveBoth(AddFulfillment(s, status), lineRequests, others, target);
    if already == [] {
      PlacedNonNegative(s);
      NothingTaken(s.items, OfLine(l), |s.items|);
    } else {
      var other := if status == RefundedAndReturned then target else target + 1;
      Picked(s, itemRequests, true);
      Picked(s, itemRequests, false);
      forall q | q in already ensures rest.items[q.item] == s.items[q.item] && s.items[q.item].Some? {
        forall p | p in others ensures p.item != q.item {
        }
        ReturnRows(s, lineRequests, others, status, q.item);
      }
      ReturnSecond(s, rest, already, target, other, l);
    }
  }

  lemma ReturnSecond(s: Store, rest: Store, already: seq<ItemRequest>, target: nat, other: nat, l: nat)
    requires Placed(s) && Placed(rest) && |s.items| <= |rest.items|
    requires ItemsKnown(s.items, already) && AskNonNegative(already)
    requires forall q :: q in already ==> rest.items[q.item] == s.items[q.item] && s.items[q.item].Some?
    requires target == |s.fulfillments| && other >= target
    ensures Sum(Transfer(rest.items, already, [], other), InFulfillment(l, other))
         == Sum(rest.items, InFulfillment(l, other)) + TakenAll(s.items, already, OfLine(l), |s.items|)
    ensures other != target ==>
      Sum(Transfer(rest.items, already, [], other), InFulfillment(l, target))
          == Sum(rest.items, InFulfillment(l, target))
  {
    PlacedNonNegative(s);
    PlacedNonNegative(rest);
    forall q | q in already ensures rest.items[q.item].Some? && rest.items[q.item].value.fulfillment < target {
      assert ItemPlaced(s, s.items[q.item].value);
    }
    TransferConserves(rest.items, already, [], other, OfLine(l));
    forall k | 0 <= k < |s.items| && Asked(already, k) != 0 ensures s.items[k] == rest.items[k] {
      AskedNonNegative(already, k);
    }
    assert ItemsKnown(rest.items[..|s.items|], already);
    TakenNew(rest.items, already, OfLine(l), |s.items|);
    TakenFromSame(s.items, rest.items, already, OfLine(l), |s.items|);
    if other != target {
      TransferElsewhere(rest.items, already, [], other, InFulfillment(l, target));
    }
  }
}
