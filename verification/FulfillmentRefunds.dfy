/** The draft order that replaces lines and the amount that is refunded for lines (saleor/order/actions.py). */
module FulfillmentRefunds {

  import opened Wrappers
  import opened Fulfillment
  import opened FulfillmentMoves
  import opened FulfillmentQuantities
  import opened FulfillmentRuns

  /** Quantities by order line: `order_line_to_create` and `lines_to_refund`. */
  type Quantities = map<nat, int>

  function Get(m: Quantities, line: nat): int {
    if line in m then m[line] else 0
  }

  /** The rows of the requests are there. */
  predicate ItemsExist(items: seq<Option<Item>>, requests: seq<ItemRequest>) {
    forall q :: q in requests ==> q.item < |items| && items[q.item].Some?
  }

  /** A later request for an order line replaces an earlier one. */
  function EnterLines(m: Quantities, requests: seq<LineRequest>): Quantities
    decreases |requests|
  {
    if requests == [] then m else EnterLines(m[requests[0].line := requests[0].quantity], requests[1..])
  }

  /** A request for a fulfillment line is added to what its order line already has. */
  function EnterItems(m: Quantities, items: seq<Option<Item>>, requests: seq<ItemRequest>): Quantities
    requires ItemsExist(items, requests)
    decreases |requests|
  {
    if requests == [] then m
    else
      var q := requests[0];
      assert q in requests;
      var line := items[q.item].value.line;
      EnterItems(m[line := Get(m, line) + q.quantity], items, requests[1..])
  }

  /** The order lines of `create_replace_order`, by the original order line. */
  function Replacement(items: seq<Option<Item>>, lineRequests: seq<LineRequest>,
                       itemRequests: seq<ItemRequest>): Quantities
    requires ItemsExist(items, itemRequests)
  {
    EnterItems(EnterLines(map[], lineRequests), items, itemRequests)
  }

  // --- The replacement order has what was moved ---

  predicate Requested(requests: seq<LineRequest>, l: nat) {
    exists q :: q in requests && q.line == l
  }

  /** What is asked of an order line by all requests for it but the last. */
  function AskedBeforeLast(requests: seq<LineRequest>, l: nat): int {
    if requests == [] then 0
    else
      (if requests[0].line == l && Requested(requests[1..], l) then requests[0].quantity else 0)
      + AskedBeforeLast(requests[1..], l)
  }

  /** A request for an order line asks for nothing when a later one is for the same order line. */
  predicate RepeatsAreEmpty(requests: seq<LineRequest>, l: nat) {
    forall i, j :: 0 <= i < j < |requests| && requests[i].line == l && requests[j].line == l ==>
      requests[i].quantity == 0
  }

  lemma RequestedRest(requests: seq<LineRequest>, l: nat)
    requires requests != []
    ensures Requested(requests, l) <==> requests[0].line == l || Requested(requests[1..], l)
  {
    if requests[0].line == l {
      assert requests[0] in requests;
    }
    if Requested(requests[1..], l) {
      var q :| q in requests[1..] && q.line == l;
      assert q in requests;
    }
  }

  lemma NotRequested(requests: seq<LineRequest>, l: nat)
    requires !Requested(requests, l)
    ensures AskedOfLine(requests, l) == 0 && AskedBeforeLast(requests, l) == 0
  {
    if requests != [] {
      RequestedRest(requests, l);
      NotRequested(requests[1..], l);
    }
  }

  /** Of the requests for an order line the last one stays. */
  lemma {:induction false} EnteredLines(m: Quantities, requests: seq<LineRequest>, l: nat)
    ensures Get(EnterLines(m, requests), l)
         == (if Requested(requests, l) then AskedOfLine(requests, l) - AskedBeforeLast(requests, l) else Get(m, l))
    decreases |requests|
  {
    if requests != [] {
      var q := requests[0];
      RequestedRest(requests, l);
      EnteredLines(m[q.line := q.quantity], requests[1..], l);
      if !Requested(requests[1..], l) {
        NotRequested(requests[1..], l);
      }
    }
  }

  lemma EnteredFromNothing(requests: seq<LineRequest>, l: nat)
    ensures Get(EnterLines(map[], requests), l) == AskedOfLine(requests, l) - AskedBeforeLast(requests, l)
  {
    EnteredLines(map[], requests, l);
    if !Requested(requests, l) {
      NotRequested(requests, l);
    }
  }

  lemma RepeatsAreEmptyRest(requests: seq<LineRequest>, l: nat)
    requires requests != []
    ensures RepeatsAreEmpty(requests, l) <==>
      && RepeatsAreEmpty(requests[1..], l)
      && (requests[0].line == l && Requested(requests[1..], l) ==> requests[0].quantity == 0)
  {
    var rest := requests[1..];
    if RepeatsAreEmpty(requests, l) {
      if requests[0].line == l && Requested(rest, l) {
        var q :| q in rest && q.line == l;
        var j :| 0 <= j < |rest| && rest[j] == q;
        assert requests[j + 1] == q;
      }
      forall i, j | 0 <= i < j < |rest| && rest[i].line == l && rest[j].line == l ensures rest[i].quantity == 0 {
        assert requests[i + 1] == rest[i] && requests[j + 1] == rest[j];
      }
    } else {
      var i, j :| 0 <= i < j < |requests| && requests[i].line == l && requests[j].line == l
                  && requests[i].quantity != 0;
      assert requests[j] == rest[j - 1] && rest[j - 1] in rest;
      if i > 0 {
        assert requests[i] == rest[i - 1];
      }
    }
  }

  lemma {:induction false} NothingBeforeLast(requests: seq<LineRequest>, l: nat)
    ensures RepeatsAreEmpty(requests, l) ==> AskedBeforeLast(requests, l) == 0
    ensures LinesNonNegative(requests) ==> AskedBeforeLast(requests, l) >= 0
    ensures LinesNonNegative(requests) && AskedBeforeLast(requests, l) == 0 ==> RepeatsAreEmpty(requests, l)
  {
    if requests != [] {
      assert requests[0] in requests;
      NothingBeforeLast(requests[1..], l);
      RepeatsAreEmptyRest(requests, l);
    }
  }

  /** The total requested of the fulfillment lines of an order line. */
  function AskedThrough(items: seq<Option<Item>>, requests: seq<ItemRequest>, l: nat): int
    requires ItemsExist(items, requests)
  {
    if requests == [] then 0
    else
      assert requests[0] in requests;
      (if items[requests[0].item].value.line == l then requests[0].quantity else 0)
          + AskedThrough(items, requests[1..], l)
  }

  lemma {:induction false} EnteredItems(m: Quantities, items: seq<Option<Item>>, requests: seq<ItemRequest>, l: nat)
    requires ItemsExist(items, requests)
    ensures Get(EnterItems(m, items, requests), l) == Get(m, l) + AskedThrough(items, requests, l)
    decreases |requests|
  {
    if requests != [] {
      var q := requests[0];
      assert q in requests;
      var line := items[q.item].value.line;
      EnteredItems(m[line := Get(m, line) + q.quantity], items, requests[1..], l);
    }
  }

  function AskedPart(items: seq<Option<Item>>, requests: seq<ItemRequest>, l: nat, k: nat): int
    requires k < |items|
  {
    if items[k].Some? && items[k].value.line == l then Asked(requests, k) else 0
  }

  /** The same total, row by row. */
  function AskedUpTo(items: seq<Option<Item>>, requests: seq<ItemRequest>, l: nat, n: nat): int
    requires n <= |items|
  {
    if n == 0 then 0 else AskedUpTo(items, requests, l, n - 1) + AskedPart(items, requests, l, n - 1)
  }

  lemma {:induction false} AskedUpToStep(items: seq<Option<Item>>, requests: seq<ItemRequest>, l: nat, n: nat)
    requires requests != [] && ItemsExist(items, requests) && n <= |items|
    ensures requests[0] in requests
    ensures AskedUpTo(items, requests, l, n) == AskedUpTo(items, requests[1..], l, n)
      + (if requests[0].item < n && items[requests[0].item].value.line == l then requests[0].quantity else 0)
  {
    assert requests[0] in requests;
    if n > 0 {
      AskedUpToStep(items, requests, l, n - 1);
    }
  }

  lemma {:induction false} AskedBothWays(items: seq<Option<Item>>, requests: seq<ItemRequest>, l: nat)
    requires ItemsExist(items, requests)
    ensures AskedThrough(items, requests, l) == AskedUpTo(items, requests, l, |items|)
  {
    if requests == [] {
      NothingAsked(items, l, |items|);
    } else {
      AskedUpToStep(items, requests, l, |items|);
      AskedBothWays(items, requests[1..], l);
    }
  }

  lemma NothingAsked(items: seq<Option<Item>>, l: nat, n: nat)
    requires n <= |items|
    ensures AskedUpTo(items, [], l, n) == 0
  {
  }

  predicate RowInRange(items: seq<Option<Item>>, requests: seq<ItemRequest>, k: nat)
    requires k < |items|
  {
    items[k].Some? ==> Asked(requests, k) <= items[k].value.quantity
  }

  /** What is taken is what was asked exactly when no row is asked for more than it has. */
  lemma {:induction false} TakenIsAsked(items: seq<Option<Item>>, requests: seq<ItemRequest>, l: nat, n: nat)
    requires n <= |items| && NoneNegative(items) && AskNonNegative(requests)
    ensures TakenAll(items, requests, OfLine(l), n) <= AskedUpTo(items, requests, l, n)
    ensures TakenAll(items, requests, OfLine(l), n) == AskedUpTo(items, requests, l, n) <==>
      forall k :: 0 <= k < n && items[k].Some? && items[k].value.line == l ==> RowInRange(items, requests, k)
  {
    if n > 0 {
      TakenIsAsked(items, requests, l, n - 1);
      AskedNonNegative(requests, n - 1);
    }
  }

  lemma {:induction false} TakenOfPrefix(items: seq<Option<Item>>, more: seq<Option<Item>>, requests: seq<ItemRequest>,
                                         f: Filter, n: nat)
    requires items <= more && n <= |items|
    ensures TakenAll(more, requests, f, n) == TakenAll(items, requests, f, n)
  {
    if n > 0 {
      TakenOfPrefix(items, more, requests, f, n - 1);
    }
  }

  function InFulfillment(line: nat, fulfillment: nat): Filter { Filter(line, None, Some(fulfillment)) }

  /** What a new fulfillment gets of an order line. */
  lemma MovedQuantity(s: Store, lineRequests: seq<LineRequest>, itemRequests: seq<ItemRequest>, status: Status, l: nat)
    requires Good(s) && Requests(s, lineRequests, itemRequests)
    requires status != Waiting && l < |s.lines|
    ensures
      var r := MoveBoth(AddFulfillment(s, status), lineRequests, itemRequests, |s.fulfillments|);
      && r.fulfillments == s.fulfillments + [Some(status)]
      && Sum(r.items, InFulfillment(l, |s.fulfillments|))
         == Min(s.lines[l].Unfulfilled(), AskedOfLine(lineRequests, l))
            + TakenAll(s.items, itemRequests, OfLine(l), |s.items|)
  {
    var target := |s.fulfillments|;
    var start := AddFulfillment(s, status);
    var moved := MoveLines(start, lineRequests, target);
    AddFulfillmentKeeps(s, status);
    LinesMoveExactly(start, lineRequests, target, l);
    FreshTarget(s, moved, itemRequests, target);
    PlacedNonNegative(moved);
    TransferConserves(moved.items, itemRequests, Keys(|s.items|, |moved.items|), target, OfLine(l));
    assert moved.items[..|s.items|] == s.items;
    TakenNew(moved.items, itemRequests, OfLine(l), |s.items|);
    TakenOfPrefix(s.items, moved.items, itemRequests, OfLine(l), |s.items|);
    forall k | 0 <= k < |s.items| && s.items[k].Some? ensures !Matches(InFulfillment(l, target), s.items[k].value) {
      assert ItemPlaced(s, s.items[k].value);
    }
    NothingThere(s.items, InFulfillment(l, target));
  }

  /** Neither an order line nor one of its fulfillment lines is asked for more than it has. */
  predicate LineInRange(s: Store, lineRequests: seq<LineRequest>, itemRequests: seq<ItemRequest>, l: nat)
    requires l < |s.lines|
  {
    && AskedOfLine(lineRequests, l) <= s.lines[l].Unfulfilled()
    && forall k :: 0 <= k < |s.items| && s.items[k].Some? && s.items[k].value.line == l ==>
         RowInRange(s.items, itemRequests, k)
  }

  /** What is asked of an order line and of its fulfillment lines beyond what they have. */
  function Excess(s: Store, lineRequests: seq<LineRequest>, itemRequests: seq<ItemRequest>, l: nat): int
    requires l < |s.lines|
  {
    AskedOfLine(lineRequests, l) - Min(s.lines[l].Unfulfilled(), AskedOfLine(lineRequests, l))
    + AskedUpTo(s.items, itemRequests, l, |s.items|) - TakenAll(s.items, itemRequests, OfLine(l), |s.items|)
  }

  lemma NoExcess(s: Store, lineRequests: seq<LineRequest>, itemRequests: seq<ItemRequest>, l: nat)
    requires Placed(s) && Requests(s, lineRequests, itemRequests)
    requires l < |s.lines|
    ensures Excess(s, lineRequests, itemRequests, l) >= 0
    ensures Excess(s, lineRequests, itemRequests, l) == 0 <==> LineInRange(s, lineRequests, itemRequests, l)
  {
    PlacedNonNegative(s);
    TakenIsAsked(s.items, itemRequests, l, |s.items|);
  }

  predicate LineMatches(s: Store, lineRequests: seq<LineRequest>, itemRequests: seq<ItemRequest>, l: nat)
    requires Requests(s, lineRequests, itemRequests) && ItemsExist(s.items, itemRequests)
  {
    Get(Replacement(s.items, lineRequests, itemRequests), l)
      == Sum(Replace(s, lineRequests, itemRequests).items, InFulfillment(l, |s.fulfillments|))
  }

  /** The draft order and the moves differ by what earlier requests ask and by what cannot be moved. */
  lemma ReplacementAndMoves(s: Store, lineRequests: seq<LineRequest>, itemRequests: seq<ItemRequest>, l: nat)
    requires Good(s) && Requests(s, lineRequests, itemRequests) && ItemsExist(s.items, itemRequests)
    requires l < |s.lines|
    ensures Get(Replacement(s.items, lineRequests, itemRequests), l) + AskedBeforeLast(lineRequests, l)
         == Sum(Replace(s, lineRequests, itemRequests).items, InFulfillment(l, |s.fulfillments|))
            + Excess(s, lineRequests, itemRequests, l)
  {
    EnteredFromNothing(lineRequests, l);
    EnteredItems(EnterLines(map[], lineRequests), s.items, itemRequests, l);
    AskedBothWays(s.items, itemRequests, l);
    MovedQuantity(s, lineRequests, itemRequests, Replaced, l);
  }

  /**
   * The draft order has the moved quantity of an order line exactly when the earlier requests for the line ask for
   * as much as the requests exceed what there is. For requests in range that is when they ask for nothing.
   */
  lemma ReplacementMatchesMoves(s: Store, lineRequests: seq<LineRequest>, itemRequests: seq<ItemRequest>, l: nat)
    requires Good(s) && Requests(s, lineRequests, itemRequests) && ItemsExist(s.items, itemRequests)
    requires l < |s.lines|
    ensures LineMatches(s, lineRequests, itemRequests, l) <==>
      AskedBeforeLast(lineRequests, l) == Excess(s, lineRequests, itemRequests, l)
    ensures LineInRange(s, lineRequests, itemRequests, l) ==>
      (LineMatches(s, lineRequests, itemRequests, l) <==> RepeatsAreEmpty(lineRequests, l))
    ensures RepeatsAreEmpty(lineRequests, l) ==>
      (LineMatches(s, lineRequests, itemRequests, l) <==> LineInRange(s, lineRequests, itemRequests, l))
  {
    ReplacementAndMoves(s, lineRequests, itemRequests, l);
    NothingBeforeLast(lineRequests, l);
    NoExcess(s, lineRequests, itemRequests, l);
  }

  /** With two requests for one order line the replacement order has only the second. */
  lemma RepeatedLineIsLost()
    ensures
      var s := Store([OrderLine(2, 0, 1.0)], [], []);
      var twice := [LineRequest(0, 1), LineRequest(0, 1)];
      && Good(s) && LineInRange(s, twice, [], 0) && Requests(s, twice, [])
      && Get(Replacement(s.items, twice, []), 0) == 1
      && Sum(Replace(s, twice, []).items, InFulfillment(0, 0)) == 2
  {
    var s := Store([OrderLine(2, 0, 1.0)], [], []);
    var once := [LineRequest(0, 1)];
    var twice := [LineRequest(0, 1), LineRequest(0, 1)];
    assert LineBalanced(s, 0);
    assert twice[1..] == once && once[1..] == [];
    assert AskedOfLine(once, 0) == 1 && AskedOfLine(twice, 0) == 2;
    MovedQuantity(s, twice, [], Replaced, 0);
    assert EnterLines(map[0 := 1], once) == map[0 := 1];
  }

  // --- The refunded amount ---

  /** The running amount and `lines_to_refund`. */
  datatype Refunds = Refunds(amount: real, lines: Quantities)

  /** The price of a quantity of an order line. */
  function Worth(lines: seq<OrderLine>, line: nat, quantity: int): real {
    if line < |lines| then quantity as real * lines[line].price else 0.0
  }

  function RefundLines(r: Refunds, lines: seq<OrderLine>, requests: seq<LineRequest>): Refunds
    decreases |requests|
  {
    if requests == [] then r
    else
      var q := requests[0];
      RefundLines(Refunds(r.amount + Worth(lines, q.line, q.quantity), r.lines[q.line := q.quantity]), lines,
                  requests[1..])
  }

  function RefundItems(r: Refunds, s: Store, requests: seq<ItemRequest>): Refunds
    requires ItemsExist(s.items, requests)
    decreases |requests|
  {
    if requests == [] then r
    else
      var q := requests[0];
      assert q in requests;
      var line := s.items[q.item].value.line;
      if AlreadyRefunded(s, q) then RefundItems(r, s, requests[1..])
      else
        RefundItems(Refunds(r.amount + Worth(s.lines, line, q.quantity),
                            r.lines[line := Get(r.lines, line) + q.quantity]), s, requests[1..])
  }

  /** `_calculate_refund_amount`. */
  function RefundAmount(s: Store, lineRequests: seq<LineRequest>, itemRequests: seq<ItemRequest>,
                        lines: Quantities): Refunds
    requires ItemsExist(s.items, itemRequests)
  {
    RefundItems(RefundLines(Refunds(0.0, lines), s.lines, lineRequests), s, itemRequests)
  }

  // --- What it is worth, with the prices of the order lines ---

  /** Every request is worth its quantity times the price of its order line. */
  function RequestedWorth(lines: seq<OrderLine>, requests: seq<LineRequest>): real
    requires forall q :: q in requests ==> q.line < |lines|
  {
    if requests == [] then 0.0
    else
      assert requests[0] in requests;
      requests[0].quantity as real * lines[requests[0].line].price + RequestedWorth(lines, requests[1..])
  }

  /** The rows of the requests belong to order lines. */
  predicate RowsOfLines(s: Store, requests: seq<ItemRequest>) {
    forall q :: q in requests ==> q.item < |s.items| && s.items[q.item].Some? && s.items[q.item].value.line < |s.lines|
  }

  predicate InRefunded(s: Store, i: Item) {
    i.fulfillment < |s.fulfillments| && s.fulfillments[i.fulfillment] == Some(Refunded)
  }

  /** So is every request for a row, unless its fulfillment was refunded before. */
  function ReturnedWorth(s: Store, requests: seq<ItemRequest>): real
    requires RowsOfLines(s, requests)
  {
    if requests == [] then 0.0
    else
      assert requests[0] in requests;
      var row := s.items[requests[0].item].value;
      (if InRefunded(s, row) then 0.0 else requests[0].quantity as real * s.lines[row.line].price)
      + ReturnedWorth(s, requests[1..])
  }

  lemma {:induction false} LinesAmount(r: Refunds, lines: seq<OrderLine>, requests: seq<LineRequest>)
    requires forall q :: q in requests ==> q.line < |lines|
    ensures RefundLines(r, lines, requests).amount == r.amount + RequestedWorth(lines, requests)
    decreases |requests|
  {
    if requests != [] {
      var q := requests[0];
      assert q in requests;
      LinesAmount(Refunds(r.amount + Worth(lines, q.line, q.quantity), r.lines[q.line := q.quantity]), lines,
                  requests[1..]);
    }
  }

  lemma {:induction false} ItemsAmount(r: Refunds, s: Store, requests: seq<ItemRequest>)
    requires RowsOfLines(s, requests)
    ensures RefundItems(r, s, requests).amount == r.amount + ReturnedWorth(s, requests)
    decreases |requests|
  {
    if requests != [] {
      var q := requests[0];
      assert q in requests;
      var line := s.items[q.item].value.line;
      if AlreadyRefunded(s, q) {
        ItemsAmount(r, s, requests[1..]);
      } else {
        ItemsAmount(Refunds(r.amount + Worth(s.lines, line, q.quantity),
                            r.lines[line := Get(r.lines, line) + q.quantity]), s, requests[1..]);
      }
    }
  }

  /** The amount is the price of all that was asked and not refunded before. */
  lemma AmountIsPrice(s: Store, lineRequests: seq<LineRequest>, itemRequests: seq<ItemRequest>, given: Quantities)
    requires LinesExist(s, lineRequests) && RowsOfLines(s, itemRequests)
    ensures RefundAmount(s, lineRequests, itemRequests, given).amount
         == RequestedWorth(s.lines, lineRequests) + ReturnedWorth(s, itemRequests)
  {
    LinesAmount(Refunds(0.0, given), s.lines, lineRequests);
    ItemsAmount(RefundLines(Refunds(0.0, given), s.lines, lineRequests), s, itemRequests);
  }

  /** The price of the quantities of the first `n` order lines. */
  function Value(lines: seq<OrderLine>, m: Quantities, n: nat): real
    requires n <= |lines|
  {
    if n == 0 then 0.0 else Value(lines, m, n - 1) + Get(m, n - 1) as real * lines[n - 1].price
  }

  lemma ValueNext(lines: seq<OrderLine>, m: Quantities, k: nat)
    requires k < |lines|
    ensures Value(lines, m, k + 1) == Value(lines, m, k) + Worth(lines, k, Get(m, k))
  {
  }

  lemma {:induction false} ValueUpdate(lines: seq<OrderLine>, m: Quantities, line: nat, quantity: int, n: nat)
    requires line < |lines| && n <= |lines|
    ensures Value(lines, m[line := quantity], n)
         == Value(lines, m, n)
             + (if line < n then Worth(lines, line, quantity) - Worth(lines, line, Get(m, line)) else 0.0)
  {
    var next := m[line := quantity];
    if n == 0 {
      assert Value(lines, next, 0) == 0.0 == Value(lines, m, 0);
    } else {
      ValueUpdate(lines, m, line, quantity, n - 1);
      ValueNext(lines, m, n - 1);
      ValueNext(lines, next, n - 1);
      assert Get(next, n - 1) == if n - 1 == line then quantity else Get(m, n - 1);
    }
  }

  /** The price of the entries that `RefundLines` replaces. */
  function Overwritten(m: Quantities, lines: seq<OrderLine>, requests: seq<LineRequest>): real
    requires forall q :: q in requests ==> q.line < |lines|
    decreases |requests|
  {
    if requests == [] then 0.0
    else
      var q := requests[0];
      assert q in requests;
      Get(m, q.line) as real * lines[q.line].price + Overwritten(m[q.line := q.quantity], lines, requests[1..])
  }

  lemma OverwrittenNext(m: Quantities, lines: seq<OrderLine>, requests: seq<LineRequest>)
    requires requests != [] && forall q :: q in requests ==> q.line < |lines|
    ensures requests[0] in requests
    ensures
      var q := requests[0];
      Overwritten(m, lines, requests)
      == Worth(lines, q.line, Get(m, q.line)) + Overwritten(m[q.line := q.quantity], lines, requests[1..])
  {
    assert requests[0] in requests;
  }

  lemma {:induction false} RefundedLines(r: Refunds, lines: seq<OrderLine>, requests: seq<LineRequest>)
    requires forall q :: q in requests ==> q.line < |lines|
    ensures
      var a := RefundLines(r, lines, requests);
      && a.amount - Value(lines, a.lines, |lines|)
         == r.amount - Value(lines, r.lines, |lines|) + Overwritten(r.lines, lines, requests)
      && a.lines == EnterLines(r.lines, requests)
    decreases |requests|
  {
    if requests != [] {
      var q := requests[0];
      var next := r.lines[q.line := q.quantity];
      OverwrittenNext(r.lines, lines, requests);
      RefundedLines(Refunds(r.amount + Worth(lines, q.line, q.quantity), next), lines, requests[1..]);
      assert Value(lines, next, |lines|)
          == Value(lines, r.lines, |lines|) + Worth(lines, q.line, q.quantity)
              - Worth(lines, q.line, Get(r.lines, q.line)) by {
        ValueUpdate(lines, r.lines, q.line, q.quantity, |lines|);
      }
    }
  }

  lemma WorthAdds(lines: seq<OrderLine>, line: nat, a: int, b: int)
    ensures Worth(lines, line, a + b) == Worth(lines, line, a) + Worth(lines, line, b)
  {
  }

  lemma {:induction false} RefundedItems(r: Refunds, s: Store, requests: seq<ItemRequest>)
    requires Placed(s) && ItemsExist(s.items, requests)
    ensures
      var a := RefundItems(r, s, requests);
      a.amount - Value(s.lines, a.lines, |s.lines|) == r.amount - Value(s.lines, r.lines, |s.lines|)
    decreases |requests|
  {
    if requests != [] {
      var q := requests[0];
      assert q in requests;
      assert ItemPlaced(s, s.items[q.item].value);
      var line := s.items[q.item].value.line;
      if AlreadyRefunded(s, q) {
        RefundedItems(r, s, requests[1..]);
      } else {
        WorthAdds(s.lines, line, Get(r.lines, line), q.quantity);
        ValueUpdate(s.lines, r.lines, line, Get(r.lines, line) + q.quantity, |s.lines|);
        RefundedItems(Refunds(r.amount + Worth(s.lines, line, q.quantity),
                              r.lines[line := Get(r.lines, line) + q.quantity]), s, requests[1..]);
      }
    }
  }

  lemma EmptyValue(lines: seq<OrderLine>, n: nat)
    requires n <= |lines|
    ensures Value(lines, map[], n) == 0.0
  {
  }

  /** The amount is the price of the resulting quantities and of the entries that a later request replaced. */
  lemma AmountIsValueAndOverwritten(s: Store, lineRequests: seq<LineRequest>, itemRequests: seq<ItemRequest>)
    requires Placed(s) && LinesExist(s, lineRequests) && ItemsExist(s.items, itemRequests)
    ensures
      var r := RefundAmount(s, lineRequests, itemRequests, map[]);
      r.amount == Value(s.lines, r.lines, |s.lines|) + Overwritten(map[], s.lines, lineRequests)
  {
    RefundedLines(Refunds(0.0, map[]), s.lines, lineRequests);
    RefundedItems(RefundLines(Refunds(0.0, map[]), s.lines, lineRequests), s, itemRequests);
    EmptyValue(s.lines, |s.lines|);
  }

  predicate NoNegativePrice(lines: seq<OrderLine>) {
    forall l :: 0 <= l < |lines| ==> lines[l].price >= 0.0
  }

  predicate Free(lines: seq<OrderLine>, line: nat, quantity: int)
    requires line < |lines|
  {
    quantity == 0 || lines[line].price == 0.0
  }

  /** A request asks for nothing, or for something free, when a later one is for the same order line. */
  predicate RepeatsAreFree(lines: seq<OrderLine>, requests: seq<LineRequest>)
    requires forall q :: q in requests ==> q.line < |lines|
  {
    forall i, j :: 0 <= i < j < |requests| && requests[i].line == requests[j].line ==>
      requests[i] in requests && Free(lines, requests[i].line, requests[i].quantity)
  }

  predicate EntriesAreFree(lines: seq<OrderLine>, m: Quantities, requests: seq<LineRequest>)
    requires forall q :: q in requests ==> q.line < |lines|
  {
    forall q :: q in requests ==> Free(lines, q.line, Get(m, q.line))
  }

  predicate NoNegativeEntry(m: Quantities) {
    forall l :: l in m ==> m[l] >= 0
  }

  lemma FreeIsWorthless(lines: seq<OrderLine>, line: nat, quantity: int)
    requires NoNegativePrice(lines) && quantity >= 0 && line < |lines|
    ensures Worth(lines, line, quantity) >= 0.0
    ensures Worth(lines, line, quantity) == 0.0 <==> Free(lines, line, quantity)
  {
  }

  lemma {:induction false} OverwrittenIsFree(m: Quantities, lines: seq<OrderLine>, requests: seq<LineRequest>)
    requires forall q :: q in requests ==> q.line < |lines|
    requires NoNegativePrice(lines) && LinesNonNegative(requests) && NoNegativeEntry(m)
    ensures Overwritten(m, lines, requests) >= 0.0
    ensures Overwritten(m, lines, requests) == 0.0 <==>
      EntriesAreFree(lines, m, requests) && RepeatsAreFree(lines, requests)
    decreases |requests|
  {
    if requests != [] {
      var q := requests[0];
      var rest := requests[1..];
      var next := m[q.line := q.quantity];
      OverwrittenNext(m, lines, requests);
      FreeIsWorthless(lines, q.line, Get(m, q.line));
      OverwrittenIsFree(next, lines, rest);
      RepeatsStep(m, lines, requests);
    }
  }

  lemma RepeatsStep(m: Quantities, lines: seq<OrderLine>, requests: seq<LineRequest>)
    requires requests != [] && forall q :: q in requests ==> q.line < |lines|
    ensures requests[0] in requests
    ensures
      var q := requests[0];
      Free(lines, q.line, Get(m, q.line)) &&
      EntriesAreFree(lines, m[q.line := q.quantity], requests[1..]) && RepeatsAreFree(lines, requests[1..])
      <==> EntriesAreFree(lines, m, requests) && RepeatsAreFree(lines, requests)
  {
    var q := requests[0];
    var rest := requests[1..];
    var next := m[q.line := q.quantity];
    assert q in requests;
    if EntriesAreFree(lines, m, requests) && RepeatsAreFree(lines, requests) {
      forall p | p in rest ensures Free(lines, p.line, Get(next, p.line)) {
        var i :| 0 <= i < |rest| && rest[i] == p;
        assert requests[i + 1] == p && p in requests;
      }
    }
    if Free(lines, q.line, Get(m, q.line)) && EntriesAreFree(lines, next, rest) && RepeatsAreFree(lines, rest) {
      forall p | p in requests ensures Free(lines, p.line, Get(m, p.line)) {
        assert p in rest || p == q;
      }
      forall i, j | 0 <= i < j < |requests| && requests[i].line == requests[j].line
        ensures requests[i] in requests && Free(lines, requests[i].line, requests[i].quantity)
      {
        assert requests[j] == rest[j - 1] && rest[j - 1] in rest;
        if i > 0 {
          assert requests[i] == rest[i - 1];
        }
      }
    }
  }

  /** The amount is the price of the quantities exactly when repeated requests for an order line are free. */
  lemma AmountIsValue(s: Store, lineRequests: seq<LineRequest>, itemRequests: seq<ItemRequest>)
    requires Placed(s) && LinesExist(s, lineRequests) && ItemsExist(s.items, itemRequests)
    requires NoNegativePrice(s.lines) && LinesNonNegative(lineRequests)
    ensures
      var r := RefundAmount(s, lineRequests, itemRequests, map[]);
      r.amount == Value(s.lines, r.lines, |s.lines|) <==> RepeatsAreFree(s.lines, lineRequests)
  {
    AmountIsValueAndOverwritten(s, lineRequests, itemRequests);
    OverwrittenIsFree(map[], s.lines, lineRequests);
  }

  lemma {:induction false} SkipsRefunded(r: Refunds, s: Store, requests: seq<ItemRequest>)
    requires ItemsExist(s.items, requests)
    ensures ItemsExist(s.items, Pick(s, requests, false))
    ensures RefundItems(r, s, requests).lines == EnterItems(r.lines, s.items, Pick(s, requests, false))
    decreases |requests|
  {
    if requests != [] {
      var q := requests[0];
      assert q in requests;
      var line := s.items[q.item].value.line;
      if AlreadyRefunded(s, q) {
        SkipsRefunded(r, s, requests[1..]);
        assert Pick(s, requests, false) == Pick(s, requests[1..], false);
      } else {
        SkipsRefunded(Refunds(r.amount + Worth(s.lines, line, q.quantity),
                              r.lines[line := Get(r.lines, line) + q.quantity]), s, requests[1..]);
        assert Pick(s, requests, false)[1..] == Pick(s, requests[1..], false);
      }
    }
  }

  /** What is asked through the rows of an order line whose fulfillment was not refunded before. */
  function AskedUnrefunded(s: Store, requests: seq<ItemRequest>, l: nat): int
    requires ItemsExist(s.items, requests)
  {
    if requests == [] then 0
    else
      assert requests[0] in requests;
      var row := s.items[requests[0].item].value;
      (if row.line == l && !InRefunded(s, row) then requests[0].quantity else 0)
          + AskedUnrefunded(s, requests[1..], l)
  }

  lemma {:induction false} PickedUnrefunded(s: Store, requests: seq<ItemRequest>, l: nat)
    requires ItemsExist(s.items, requests)
    ensures ItemsExist(s.items, Pick(s, requests, false))
    ensures AskedThrough(s.items, Pick(s, requests, false), l) == AskedUnrefunded(s, requests, l)
  {
    if requests != [] {
      var q := requests[0];
      assert q in requests;
      PickedUnrefunded(s, requests[1..], l);
      if AlreadyRefunded(s, q) {
        assert Pick(s, requests, false) == Pick(s, requests[1..], false);
      } else {
        assert Pick(s, requests, false)[1..] == Pick(s, requests[1..], false);
      }
    }
  }

  /**
   * Every order line is refunded for its last request and for its fulfillment lines that were not refunded before.
   * Unless requests are negative, that is all that was asked exactly when the earlier requests ask for nothing.
   */
  lemma RefundedQuantity(s: Store, lineRequests: seq<LineRequest>, itemRequests: seq<ItemRequest>, l: nat)
    requires ItemsExist(s.items, itemRequests)
    ensures
      var refunded := Get(RefundAmount(s, lineRequests, itemRequests, map[]).lines, l);
      var asked := AskedOfLine(lineRequests, l) + AskedUnrefunded(s, itemRequests, l);
      && refunded == asked - AskedBeforeLast(lineRequests, l)
      && (RepeatsAreEmpty(lineRequests, l) ==> refunded == asked)
      && (LinesNonNegative(lineRequests) && refunded == asked ==> RepeatsAreEmpty(lineRequests, l))
  {
    var start := RefundLines(Refunds(0.0, map[]), s.lines, lineRequests);
    SkipsRefunded(start, s, itemRequests);
    PickedUnrefunded(s, itemRequests, l);
    EnteredRefunds(Refunds(0.0, map[]), s.lines, lineRequests);
    EnteredFromNothing(lineRequests, l);
    EnteredItems(start.lines, s.items, Pick(s, itemRequests, false), l);
    NothingBeforeLast(lineRequests, l);
  }

  lemma {:induction false} EnteredRefunds(r: Refunds, lines: seq<OrderLine>, requests: seq<LineRequest>)
    ensures RefundLines(r, lines, requests).lines == EnterLines(r.lines, requests)
    decreases |requests|
  {
    if requests != [] {
      var q := requests[0];
      EnteredRefunds(Refunds(r.amount + Worth(lines, q.line, q.quantity), r.lines[q.line := q.quantity]), lines,
                     requests[1..]);
    }
  }

  // --- The payment ---

  function MinReal(a: real, b: real): real {
    if b < a then b else a
  }

  /** The amount of `_process_refund`: `given` is the amount of the caller, `captured` that of the payment. */
  function ProcessedAmount(s: Store, lineRequests: seq<LineRequest>, itemRequests: seq<ItemRequest>,
                           given: Option<real>, shipping: Option<real>, captured: Option<real>): real
    requires ItemsExist(s.items, itemRequests)
  {
    var amount :=
      if given.Some? then given.value
      else RefundAmount(s, lineRequests, itemRequests, map[]).amount + if shipping.Some? then shipping.value else 0.0;
    if amount != 0.0 && captured.Some? then MinReal(captured.value, amount) else amount
  }

  /** What is refunded: the amount of the caller, or the price of all that was asked and not refunded before with the
      shipping; through a payment no more than was captured. */
  lemma RefundIsCapped(s: Store, lineRequests: seq<LineRequest>, itemRequests: seq<ItemRequest>, given: Option<real>,
                       shipping: Option<real>, captured: Option<real>)
    requires LinesExist(s, lineRequests) && RowsOfLines(s, itemRequests)
    requires captured.Some? ==> captured.value >= 0.0
    ensures
      var full := if given.Some? then given.value
                  else RequestedWorth(s.lines, lineRequests) + ReturnedWorth(s, itemRequests)
                       + if shipping.Some? then shipping.value else 0.0;
      && ProcessedAmount(s, lineRequests, itemRequests, given, shipping, captured)
         == (if captured.Some? && captured.value < full then captured.value else full)
  {
    AmountIsPrice(s, lineRequests, itemRequests, map[]);
  }
}
