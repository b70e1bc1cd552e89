/** Creating fulfillments, said with the requests, the warehouses and the stocks alone. */
module FulfillmentCreation {

  import opened Wrappers
  import opened Fulfillment
  import opened FulfillmentMoves
  import opened FulfillmentQuantities

  /** A wanted order line has no stock in the warehouse, or its stock cannot be decreased. */
  predicate CannotFulfill(b: Batch, q: LineRequest, approved: bool, stocks: Stocks, exceed: bool) {
    && q.quantity > 0
    && ((!exceed && (b.warehouse, q.line) !in stocks) || (approved && !b.enough))
  }

  predicate Unfulfillable(batches: seq<Batch>, approved: bool, stocks: Stocks, exceed: bool) {
    exists b, q :: b in batches && q in b.requests && CannotFulfill(b, q, approved, stocks, exceed)
  }

  lemma BatchRaises(b: Batch, approved: bool, stocks: Stocks, exceed: bool)
    ensures Insufficient(b, approved, stocks, exceed)
      <==> exists q :: q in b.requests && CannotFulfill(b, q, approved, stocks, exceed)
  {
    forall q | q in b.requests && CannotFulfill(b, q, approved, stocks, exceed)
      ensures Insufficient(b, approved, stocks, exceed)
    {
      assert Lacks(b, stocks, q) || q.quantity > 0;
    }
    if !exceed && LacksStock(b, stocks) {
      var q :| q in b.requests && Lacks(b, stocks, q);
      assert CannotFulfill(b, q, approved, stocks, exceed);
    }
    if approved && WantsAnything(b) && !b.enough {
      var q :| q in b.requests && q.quantity > 0;
      assert CannotFulfill(b, q, approved, stocks, exceed);
    }
  }

  /** A creation raises exactly when some wanted order line cannot be fulfilled. */
  lemma CreationRaises(batches: seq<Batch>, approved: bool, stocks: Stocks, exceed: bool)
    ensures AnyInsufficient(batches, approved, stocks, exceed) <==> Unfulfillable(batches, approved, stocks, exceed)
  {
    forall b | b in batches {
      BatchRaises(b, approved, stocks, exceed);
    }
    if AnyInsufficient(batches, approved, stocks, exceed) {
      var b :| b in batches && Insufficient(b, approved, stocks, exceed);
      var q :| q in b.requests && CannotFulfill(b, q, approved, stocks, exceed);
    }
  }

  /** The lines of one order line and stock in one fulfillment. */
  function OfStock(line: nat, stock: Option<nat>, fulfillment: nat): Filter {
    Filter(line, Some(stock), Some(fulfillment))
  }

  /** What the batch asks of an order line is there with the stock of its warehouse, and nothing with another. */
  function Wanted(b: Batch, stocks: Stocks, line: nat, stock: Option<nat>): nat {
    var own := if (b.warehouse, line) in stocks then Some(stocks[(b.warehouse, line)]) else None;
    if stock == own then FulfillmentQuantities.Requested(b.requests, line) else 0
  }

  lemma {:induction false} NewItemsWanted(fulfillment: nat, b: Batch, stocks: Stocks, line: nat, stock: Option<nat>,
                                          f: nat)
    ensures Sum(NewItems(fulfillment, b, stocks), OfStock(line, stock, f))
         == if f == fulfillment then Wanted(b, stocks, line, stock) else 0
    decreases |b.requests|
  {
    if b.requests != [] {
      var q := b.requests[0];
      var rest := b.(requests := b.requests[1..]);
      NewItemsWanted(fulfillment, rest, stocks, line, stock, f);
      if q.quantity > 0 {
        var first := [Some(Item(fulfillment, q.line, StockOf(stocks, b.warehouse, q.line), q.quantity))];
        SumConcat(first, NewItems(fulfillment, rest, stocks), OfStock(line, stock, f));
        assert first[..0] == [];
      }
    }
  }

  /** The fulfillment at `f` of those that were created from number `n` on. */
  function WantedAt(batches: seq<Batch>, n: nat, stocks: Stocks, line: nat, stock: Option<nat>, f: nat): nat {
    if n <= f < n + |batches| then Wanted(batches[f - n], stocks, line, stock) else 0
  }

  lemma WantedAtFirst(batches: seq<Batch>, n: nat, stocks: Stocks, line: nat, stock: Option<nat>, f: nat)
    requires batches != []
    ensures WantedAt(batches, n, stocks, line, stock, f)
         == WantedAt(batches[1..], n + 1, stocks, line, stock, f)
             + if f == n then Wanted(batches[0], stocks, line, stock) else 0
  {
  }

  lemma BatchWanted(s: Store, b: Batch, status: Status, stocks: Stocks, line: nat, stock: Option<nat>, f: nat)
    requires LinesExist(s, b.requests)
    ensures Sum(CreateBatch(s, b, status, stocks).items, OfStock(line, stock, f))
         == Sum(s.items, OfStock(line, stock, f))
             + if f == |s.fulfillments| then Wanted(b, stocks, line, stock) else 0
  {
    NewItemsWanted(|s.fulfillments|, b, stocks, line, stock, f);
    SumConcat(s.items, NewItems(|s.fulfillments|, b, stocks), OfStock(line, stock, f));
  }

  lemma {:induction false} BatchesWanted(s: Store, batches: seq<Batch>, status: Status, stocks: Stocks, line: nat,
                                         stock: Option<nat>, f: nat)
    requires BatchesExist(s, batches)
    ensures Sum(CreateBatches(s, batches, status, stocks).items, OfStock(line, stock, f))
         == Sum(s.items, OfStock(line, stock, f)) + WantedAt(batches, |s.fulfillments|, stocks, line, stock, f)
    decreases |batches|
  {
    if batches != [] {
      var b := batches[0];
      assert b in batches;
      BatchWanted(s, b, status, stocks, line, stock, f);
      WantedAtFirst(batches, |s.fulfillments|, stocks, line, stock, f);
      BatchesWanted(CreateBatch(s, b, status, stocks), batches[1..], status, stocks, line, stock, f);
    }
  }

  /** A new row comes from a wanted request of its fulfillment. */
  predicate FromRequest(o: Option<Item>, batches: seq<Batch>, n: nat) {
    && o.Some? && n <= o.value.fulfillment < n + |batches|
    && NewlyPlaced(o, o.value.fulfillment, batches[o.value.fulfillment - n].requests)
  }

  lemma {:induction false} BatchesRows(s: Store, batches: seq<Batch>, status: Status, stocks: Stocks)
    requires BatchesExist(s, batches)
    ensures
      var r := CreateBatches(s, batches, status, stocks);
      && s.items <= r.items
      && forall k :: |s.items| <= k < |r.items| ==> FromRequest(r.items[k], batches, |s.fulfillments|)
    decreases |batches|
  {
    if batches != [] {
      var b := batches[0];
      assert b in batches;
      var next := CreateBatch(s, b, status, stocks);
      NewItemsPlaced(|s.fulfillments|, b, stocks);
      BatchesRows(next, batches[1..], status, stocks);
      var r := CreateBatches(s, batches, status, stocks);
      forall k | |s.items| <= k < |r.items| ensures FromRequest(r.items[k], batches, |s.fulfillments|) {
        if k < |next.items| {
          assert r.items[k] == next.items[k] && next.items[k] in NewItems(|s.fulfillments|, b, stocks);
        } else {
          assert FromRequest(r.items[k], batches[1..], |next.fulfillments|);
        }
      }
    }
  }

  lemma {:induction false} BatchesStatuses(s: Store, batches: seq<Batch>, status: Status, stocks: Stocks)
    requires BatchesExist(s, batches)
    ensures
      var r := CreateBatches(s, batches, status, stocks);
      && |r.fulfillments| == |s.fulfillments| + |batches|
      && forall f :: 0 <= f < |r.fulfillments| ==>
           r.fulfillments[f] == if f < |s.fulfillments| then s.fulfillments[f] else Some(status)
    decreases |batches|
  {
    if batches != [] {
      assert batches[0] in batches;
      BatchesStatuses(CreateBatch(s, batches[0], status, stocks), batches[1..], status, stocks);
    }
  }

  /** Every order line gained its wanted requests; there is one more fulfillment for each batch, with its wanted
      requests and nothing else, fulfilled or waiting for approval. */
  ghost predicate IsCreated(s: Store, r: Store, batches: seq<Batch>, approved: bool, stocks: Stocks) {
    var n := |s.fulfillments|;
    && |r.lines| == |s.lines|
    && (forall l :: 0 <= l < |s.lines| ==>
          r.lines[l] == s.lines[l].(fulfilled := s.lines[l].fulfilled + RequestedAll(batches, l)))
    && |r.fulfillments| == n + |batches|
    && (forall f :: 0 <= f < |r.fulfillments| ==>
          r.fulfillments[f] == if f < n then s.fulfillments[f] else if approved then Some(Fulfilled) else Some(Waiting))
    && s.items <= r.items
    && (forall k :: |s.items| <= k < |r.items| ==> FromRequest(r.items[k], batches, n))
    && (forall line, stock, f :: Sum(r.items, OfStock(line, stock, f))
          == Sum(s.items, OfStock(line, stock, f)) + WantedAt(batches, n, stocks, line, stock, f))
  }

  lemma CreationIsCreated(s: Store, batches: seq<Batch>, approved: bool, stocks: Stocks, exceed: bool)
    requires BatchesExist(s, batches)
    ensures
      var r := Create(s, batches, approved, stocks, exceed);
      if Unfulfillable(batches, approved, stocks, exceed) then r == s else IsCreated(s, r, batches, approved, stocks)
  {
    CreationRaises(batches, approved, stocks, exceed);
    if !Unfulfillable(batches, approved, stocks, exceed) {
      var status := StatusFor(approved);
      var r := CreateBatches(s, batches, status, stocks);
      BatchesStatuses(s, batches, status, stocks);
      BatchesRows(s, batches, status, stocks);
      forall l | 0 <= l < |s.lines|
        ensures r.lines[l] == s.lines[l].(fulfilled := s.lines[l].fulfilled + RequestedAll(batches, l))
      {
        BatchesAdd(s, batches, status, stocks, l);
      }
      forall line, stock, f
        ensures Sum(r.items, OfStock(line, stock, f))
             == Sum(s.items, OfStock(line, stock, f)) + WantedAt(batches, |s.fulfillments|, stocks, line, stock, f)
      {
        BatchesWanted(s, batches, status, stocks, line, stock, f);
      }
    }
  }

  /** An approval raises exactly when a line of the fulfillment has no stock, unless that may be, or a stock cannot be
      decreased. */
  predicate CannotApprove(s: Store, fulfillment: nat, exceed: bool, enough: bool) {
    || !enough
    || (!exceed && exists k :: 0 <= k < |s.items| && s.items[k].Some? && s.items[k].value.fulfillment == fulfillment
                               && s.items[k].value.stock.None?)
  }

  lemma ApprovalRaises(s: Store, fulfillment: nat, exceed: bool, enough: bool)
    requires Exists(s, fulfillment)
    ensures Approve(s, fulfillment, exceed, enough)
         == if CannotApprove(s, fulfillment, exceed, enough) then s
            else s.(fulfillments := s.fulfillments[fulfillment := Some(Fulfilled)])
    ensures CannotApprove(s, fulfillment, exceed, enough) <==>
              (!exceed && MissesStock(s, fulfillment)) || !enough
  {
    if k :| 0 <= k < |s.items| && s.items[k].Some? && s.items[k].value.fulfillment == fulfillment
            && s.items[k].value.stock.None?
    {
      assert MissesStockAt(s.items[k], fulfillment);
    }
  }
}
