/** What every operation on the fulfillments of an order keeps, and over which runs. */
module FulfillmentQuantities {

  import opened Wrappers
  import opened Fulfillment
  import opened FulfillmentMoves

  function OfLine(line: nat): Filter { Filter(line, None, None) }

  predicate LineBalanced(s: Store, l: nat)
    requires l < |s.lines|
  {
    0 <= s.lines[l].fulfilled <= s.lines[l].quantity && s.lines[l].fulfilled == Sum(s.items, OfLine(l))
  }

  predicate ItemPlaced(s: Store, i: Item) {
    && Exists(s, i.fulfillment)
    && i.line < |s.lines|
    && i.quantity >= 0
    && (HasStatus(s, i, Waiting) ==> i.quantity > 0)
  }

  predicate Placed(s: Store) {
    forall k :: 0 <= k < |s.items| && s.items[k].Some? ==> ItemPlaced(s, s.items[k].value)
  }

  /** Every fulfilled quantity is between zero and the ordered one and is the sum of its fulfillment lines. */
  predicate Balanced(s: Store) {
    Placed(s) && forall l :: 0 <= l < |s.lines| ==> LineBalanced(s, l)
  }

  /** Two fulfillment lines of one fulfillment that waits for approval. */
  predicate WaitTogether(s: Store, j: nat, k: nat)
    requires j < |s.items| && k < |s.items|
  {
    && s.items[j].Some? && s.items[k].Some?
    && s.items[j].value.fulfillment == s.items[k].value.fulfillment
    && HasStatus(s, s.items[j].value, Waiting)
  }

  /** A fulfillment that waits for approval has at most one line for each order line. */
  predicate WaitingDistinct(s: Store) {
    forall j, k :: 0 <= j < k < |s.items| && WaitTogether(s, j, k) ==> s.items[j].value.line != s.items[k].value.line
  }

  // --- Creating ---

  function Positive(n: int): nat { if n > 0 then n else 0 }

  function Requested(requests: seq<LineRequest>, line: nat): nat {
    if requests == [] then 0
    else (if requests[0].line == line then Positive(requests[0].quantity) else 0) + Requested(requests[1..], line)
  }

  function RequestedAll(batches: seq<Batch>, line: nat): nat {
    if batches == [] then 0 else Requested(batches[0].requests, line) + RequestedAll(batches[1..], line)
  }

  lemma {:induction false} IncreaseAllAdds(lines: seq<OrderLine>, requests: seq<LineRequest>, l: nat)
    requires forall q :: q in requests ==> q.line < |lines|
    requires l < |lines|
    ensures IncreaseAll(lines, requests)[l]
         == lines[l].(fulfilled := lines[l].fulfilled + Requested(requests, l))
    decreases |requests|
  {
    if requests != [] {
      var q := requests[0];
      var next := if q.quantity > 0 then Increase(lines, q.line, q.quantity) else lines;
      IncreaseAllAdds(next, requests[1..], l);
    }
  }

  lemma {:induction false} SumConcat(a: seq<Option<Item>>, b: seq<Option<Item>>, f: Filter)
    ensures Sum(a + b, f) == Sum(a, f) + Sum(b, f)
  {
    if b == [] {
      assert a + b == a;
    } else {
      var n := |b| - 1;
      SumConcat(a, b[..n], f);
      assert (a + b)[..|a| + n] == a + b[..n];
    }
  }

  lemma {:induction false} NewItemsSum(fulfillment: nat, b: Batch, stocks: Stocks, l: nat)
    ensures Sum(NewItems(fulfillment, b, stocks), OfLine(l)) == Requested(b.requests, l)
    decreases |b.requests|
  {
    if b.requests != [] {
      var q := b.requests[0];
      var rest := b.(requests := b.requests[1..]);
      NewItemsSum(fulfillment, rest, stocks, l);
      if q.quantity > 0 {
        var first := [Some(Item(fulfillment, q.line, StockOf(stocks, b.warehouse, q.line), q.quantity))];
        SumConcat(first, NewItems(fulfillment, rest, stocks), OfLine(l));
        assert first[..0] == [];
      }
    }
  }

  predicate NewlyPlaced(o: Option<Item>, fulfillment: nat, requests: seq<LineRequest>) {
    && o.Some?
    && o.value.fulfillment == fulfillment
    && o.value.quantity > 0
    && exists q :: q in requests && q.line == o.value.line && q.quantity == o.value.quantity
  }

  lemma {:induction false} NewItemsPlaced(fulfillment: nat, b: Batch, stocks: Stocks)
    ensures forall o :: o in NewItems(fulfillment, b, stocks) ==> NewlyPlaced(o, fulfillment, b.requests)
    decreases |b.requests|
  {
    if b.requests != [] {
      var rest := b.(requests := b.requests[1..]);
      NewItemsPlaced(fulfillment, rest, stocks);
      assert b.requests[0] in b.requests;
      forall o | o in NewItems(fulfillment, b, stocks) ensures NewlyPlaced(o, fulfillment, b.requests) {
        if o in NewItems(fulfillment, rest, stocks) {
          assert NewlyPlaced(o, fulfillment, rest.requests);
        }
      }
    }
  }

  /** What creating does to every order line. */
  lemma {:induction false} BatchesAdd(s: Store, batches: seq<Batch>, status: Status, stocks: Stocks, l: nat)
    requires BatchesExist(s, batches)
    requires l < |s.lines|
    ensures
      var r := CreateBatches(s, batches, status, stocks);
      && r.lines[l] == s.lines[l].(fulfilled := s.lines[l].fulfilled + RequestedAll(batches, l))
      && Sum(r.items, OfLine(l)) == Sum(s.items, OfLine(l)) + RequestedAll(batches, l)
    decreases |batches|
  {
    if batches != [] {
      var b := batches[0];
      assert b in batches;
      IncreaseAllAdds(s.lines, b.requests, l);
      NewItemsSum(|s.fulfillments|, b, stocks, l);
      SumConcat(s.items, NewItems(|s.fulfillments|, b, stocks), OfLine(l));
      BatchesAdd(CreateBatch(s, b, status, stocks), batches[1..], status, stocks, l);
    }
  }

  lemma BatchPlaced(s: Store, b: Batch, status: Status, stocks: Stocks)
    requires LinesExist(s, b.requests)
    requires Placed(s)
    ensures Placed(CreateBatch(s, b, status, stocks))
  {
    var r := CreateBatch(s, b, status, stocks);
    NewItemsPlaced(|s.fulfillments|, b, stocks);
    forall k | 0 <= k < |r.items| && r.items[k].Some? ensures ItemPlaced(r, r.items[k].value) {
      if k < |s.items| {
        assert ItemPlaced(s, s.items[k].value);
      } else {
        assert r.items[k] in NewItems(|s.fulfillments|, b, stocks);
      }
    }
  }

  lemma {:induction false} BatchesPlaced(s: Store, batches: seq<Batch>, status: Status, stocks: Stocks)
    requires BatchesExist(s, batches)
    requires Placed(s)
    ensures Placed(CreateBatches(s, batches, status, stocks))
    decreases |batches|
  {
    if batches != [] {
      assert batches[0] in batches;
      BatchPlaced(s, batches[0], status, stocks);
      BatchesPlaced(CreateBatch(s, batches[0], status, stocks), batches[1..], status, stocks);
    }
  }

  /** The requests ask for no more than is unfulfilled. */
  predicate WithinUnfulfilled(s: Store, batches: seq<Batch>) {
    forall l :: 0 <= l < |s.lines| ==> RequestedAll(batches, l) <= s.lines[l].Unfulfilled()
  }

  /** The code does not check the requested quantities: the balance is kept exactly when the caller did. */
  lemma CreateKeepsBalance(s: Store, batches: seq<Batch>, approved: bool, stocks: Stocks, exceed: bool)
    requires BatchesExist(s, batches)
    requires Balanced(s)
    ensures Balanced(Create(s, batches, approved, stocks, exceed))
      <==> AnyInsufficient(batches, approved, stocks, exceed) || WithinUnfulfilled(s, batches)
  {
    if !AnyInsufficient(batches, approved, stocks, exceed) {
      var r := CreateBatches(s, batches, StatusFor(approved), stocks);
      BatchesPlaced(s, batches, StatusFor(approved), stocks);
      forall l | 0 <= l < |s.lines|
        ensures LineBalanced(r, l) <==> RequestedAll(batches, l) <= s.lines[l].Unfulfilled()
      {
        BatchesAdd(s, batches, StatusFor(approved), stocks, l);
        assert LineBalanced(s, l);
      }
    }
  }

  predicate DistinctLines(requests: seq<LineRequest>) {
    forall i, j :: 0 <= i < j < |requests| ==> requests[i].line != requests[j].line
  }

  predicate DistinctRows(n: seq<Option<Item>>) {
    forall j, k :: 0 <= j < k < |n| && n[j].Some? && n[k].Some? ==> n[j].value.line != n[k].value.line
  }

  lemma {:induction false} NewItemsDistinct(fulfillment: nat, b: Batch, stocks: Stocks)
    requires DistinctLines(b.requests)
    ensures DistinctRows(NewItems(fulfillment, b, stocks))
    decreases |b.requests|
  {
    if b.requests != [] {
      var rest := b.(requests := b.requests[1..]);
      NewItemsDistinct(fulfillment, rest, stocks);
      NewItemsPlaced(fulfillment, rest, stocks);
      var n := NewItems(fulfillment, b, stocks);
      var m := NewItems(fulfillment, rest, stocks);
      forall k | 0 <= k < |m| ensures m[k].Some? && m[k].value.line != b.requests[0].line {
        assert m[k] in m && NewlyPlaced(m[k], fulfillment, rest.requests);
      }
      if b.requests[0].quantity > 0 {
        var first := n[0];
        assert n == [first] + m;
        assert first.value.line == b.requests[0].line;
      } else {
        assert n == m;
      }
    }
  }

  lemma BatchDistinct(s: Store, b: Batch, status: Status, stocks: Stocks)
    requires LinesExist(s, b.requests)
    requires Placed(s) && WaitingDistinct(s)
    requires status == Waiting ==> DistinctLines(b.requests)
    ensures WaitingDistinct(CreateBatch(s, b, status, stocks))
  {
    var r := CreateBatch(s, b, status, stocks);
    var n := NewItems(|s.fulfillments|, b, stocks);
    NewItemsPlaced(|s.fulfillments|, b, stocks);
    if status == Waiting {
      NewItemsDistinct(|s.fulfillments|, b, stocks);
    }
    forall k | |s.items| <= k < |r.items|
      ensures r.items[k].Some? && r.items[k].value.fulfillment == |s.fulfillments|
    {
      assert r.items[k] == n[k - |s.items|] && r.items[k] in n;
    }
    forall j, k | 0 <= j < k < |r.items| && WaitTogether(r, j, k)
      ensures r.items[j].value.line != r.items[k].value.line
    {
      if j < |s.items| {
        assert ItemPlaced(s, s.items[j].value);
        assert WaitTogether(s, j, k);
      } else {
        var i, h := j - |s.items|, k - |s.items|;
        assert r.items[j] == n[i] && r.items[k] == n[h];
      }
    }
  }

  lemma {:induction false} BatchesDistinct(s: Store, batches: seq<Batch>, status: Status, stocks: Stocks)
    requires BatchesExist(s, batches)
    requires Placed(s) && WaitingDistinct(s)
    requires status == Waiting ==> forall b :: b in batches ==> DistinctLines(b.requests)
    ensures WaitingDistinct(CreateBatches(s, batches, status, stocks))
    decreases |batches|
  {
    if batches != [] {
      assert batches[0] in batches;
      BatchPlaced(s, batches[0], status, stocks);
      BatchDistinct(s, batches[0], status, stocks);
      BatchesDistinct(CreateBatch(s, batches[0], status, stocks), batches[1..], status, stocks);
    }
  }

  // --- Cancelling ---

  function RowSum(rows: seq<Item>, line: nat): int {
    if rows == [] then 0
    else RowSum(rows[..|rows| - 1], line) + (if rows[|rows| - 1].line == line then rows[|rows| - 1].quantity else 0)
  }

  /** The quantity of the first row of an order line. */
  function FirstQuantity(rows: seq<Item>, line: nat): int {
    if rows == [] then 0
    else if rows[0].line == line then rows[0].quantity
    else FirstQuantity(rows[1..], line)
  }

  /** `loaded` without its last key lists what is left when that row is taken away. */
  lemma LoadsLess(s: Store, fulfillment: nat, loaded: seq<nat>)
    requires Loads(s, fulfillment, loaded) && loaded != []
    ensures
      var n := |loaded| - 1;
      loaded[n] < |s.items| && Loads(s.(items := s.items[loaded[n] := None]), fulfillment, loaded[..n])
  {
    var n := |loaded| - 1;
    var last := loaded[n];
    assert last in loaded;
    var less := s.(items := s.items[last := None]);
    forall k ensures k in loaded[..n] <==>
      0 <= k < |less.items| && less.items[k].Some? && less.items[k].value.fulfillment == fulfillment
    {
      assert k in loaded <==> k in loaded[..n] || k == last;
    }
  }

  lemma LoadedArePresent(s: Store, fulfillment: nat, loaded: seq<nat>)
    requires Loads(s, fulfillment, loaded)
    ensures AllPresent(s.items, loaded)
  {
  }

  lemma RowsOfLess(items: seq<Option<Item>>, loaded: seq<nat>, n: nat)
    requires n < |loaded| && AllPresent(items, loaded) && loaded[n] < |items|
    requires AllPresent(items[loaded[n] := None], loaded[..n])
    ensures Rows(items, loaded)[..n] == Rows(items[loaded[n] := None], loaded[..n])
  {
  }

  lemma {:induction false} LoadedSum(s: Store, fulfillment: nat, loaded: seq<nat>, line: nat)
    requires Loads(s, fulfillment, loaded)
    ensures AllPresent(s.items, loaded)
    ensures RowSum(Rows(s.items, loaded), line) == Sum(s.items, Filter(line, None, Some(fulfillment)))
    decreases |loaded|
  {
    var f := Filter(line, None, Some(fulfillment));
    if loaded == [] {
      NothingThere(s.items, f);
    } else {
      var n := |loaded| - 1;
      LoadsLess(s, fulfillment, loaded);
      LoadedSum(s.(items := s.items[loaded[n] := None]), fulfillment, loaded[..n], line);
      LoadedArePresent(s, fulfillment, loaded);
      SumUpdate(s.items, loaded[n], None, f);
      RowsOfLess(s.items, loaded, n);
    }
  }

  lemma NothingThere(items: seq<Option<Item>>, f: Filter)
    requires forall k :: 0 <= k < |items| && items[k].Some? ==> !Matches(f, items[k].value)
    ensures Sum(items, f) == 0
  {
  }

  lemma {:induction false} RemovalSum(items: seq<Option<Item>>, fulfillment: nat, line: nat)
    ensures Sum(WithoutFulfillment(items, fulfillment), OfLine(line))
         == Sum(items, OfLine(line)) - Sum(items, Filter(line, None, Some(fulfillment)))
  {
    if items != [] {
      var n := |items| - 1;
      RemovalSum(items[..n], fulfillment, line);
      assert WithoutFulfillment(items, fulfillment)[..n] == WithoutFulfillment(items[..n], fulfillment);
    }
  }

  lemma {:induction false} WrittenByFirst(lines: seq<OrderLine>, rows: seq<Item>, copies: seq<Copy>, l: nat)
    requires l < |lines| && |copies| == |rows|
    requires forall a :: 0 <= a < |rows| ==>
      rows[a].line < |lines| && copies[a] == Copy(rows[a].line, lines[rows[a].line].fulfilled - rows[a].quantity)
    ensures Written(copies, l).Some? ==> Written(copies, l).value == lines[l].fulfilled - FirstQuantity(rows, l)
    ensures Written(copies, l).None? ==> FirstQuantity(rows, l) == 0
    decreases |rows|
  {
    if rows != [] && rows[0].line != l {
      WrittenByFirst(lines, rows[1..], copies[1..], l);
    }
  }

  lemma {:induction false} CopiesAt(lines: seq<OrderLine>, rows: seq<Item>, a: nat)
    requires forall i :: i in rows ==> i.line < |lines|
    requires a < |rows|
    ensures rows[a] in rows
    ensures Copies(lines, rows)[a] == Copy(rows[a].line, lines[rows[a].line].fulfilled - rows[a].quantity)
  {
    var n := |rows| - 1;
    if a < n {
      CopiesAt(lines, rows[..n], a);
    }
  }

  /** No second row of an order line has a quantity. */
  predicate LaterAreZero(rows: seq<Item>, line: nat) {
    forall a, b :: 0 <= a < b < |rows| && rows[a].line == line && rows[b].line == line ==> rows[b].quantity == 0
  }

  lemma {:induction false} FirstOfPrefix(rows: seq<Item>, n: nat, line: nat)
    requires n <= |rows|
    requires exists a :: 0 <= a < n && rows[a].line == line
    ensures FirstQuantity(rows[..n], line) == FirstQuantity(rows, line)
    decreases n
  {
    if rows[0].line != line {
      assert rows[..n][1..] == rows[1..][..n - 1];
      var a :| 0 <= a < n && rows[a].line == line;
      assert rows[1..][a - 1].line == line;
      FirstOfPrefix(rows[1..], n - 1, line);
    }
  }

  lemma {:induction false} FirstIsLast(rows: seq<Item>, line: nat)
    requires rows != [] && rows[|rows| - 1].line == line
    requires forall a :: 0 <= a < |rows| - 1 ==> rows[a].line != line
    ensures FirstQuantity(rows, line) == rows[|rows| - 1].quantity
    decreases |rows|
  {
    if |rows| > 1 {
      FirstIsLast(rows[1..], line);
    }
  }

  lemma {:induction false} NoneOfLine(rows: seq<Item>, line: nat)
    requires forall a :: 0 <= a < |rows| ==> rows[a].line != line
    ensures RowSum(rows, line) == 0 && FirstQuantity(rows, line) == 0
  {
    if rows != [] {
      NoneOfLine(rows[..|rows| - 1], line);
      FirstNowhere(rows, line);
    }
  }

  lemma FirstNowhere(rows: seq<Item>, line: nat)
    requires forall a :: 0 <= a < |rows| ==> rows[a].line != line
    ensures FirstQuantity(rows, line) == 0
  {
  }

  /** The first row of an order line makes up its total exactly when no later row has a quantity. */
  lemma {:induction false} FirstIsAll(rows: seq<Item>, line: nat)
    requires forall i :: i in rows ==> i.quantity >= 0
    ensures FirstQuantity(rows, line) <= RowSum(rows, line)
    ensures FirstQuantity(rows, line) == RowSum(rows, line) <==> LaterAreZero(rows, line)
  {
    if rows != [] {
      var n := |rows| - 1;
      assert rows[n] in rows;
      FirstIsAll(rows[..n], line);
      if exists a :: 0 <= a < n && rows[a].line == line {
        FirstOfPrefix(rows, n, line);
        assert LaterAreZero(rows, line) <==>
          LaterAreZero(rows[..n], line) && (rows[n].line == line ==> rows[n].quantity == 0);
      } else {
        NoneOfLine(rows[..n], line);
        if rows[n].line == line {
          FirstIsLast(rows, line);
        } else {
          NoneOfLine(rows, line);
        }
      }
    }
  }

  /** The order lines of the fulfillment are distinct, but for rows without a quantity that come later. */
  predicate CancelsOncePerLine(items: seq<Option<Item>>, loaded: seq<nat>)
    requires AllPresent(items, loaded)
  {
    forall a, b :: 0 <= a < b < |loaded| ==>
      loaded[a] in loaded && loaded[b] in loaded &&
      (items[loaded[a]].value.line == items[loaded[b]].value.line ==> items[loaded[b]].value.quantity == 0)
  }

  lemma RowsPlaced(s: Store, loaded: seq<nat>)
    requires Placed(s) && AllPresent(s.items, loaded)
    ensures forall i :: i in Rows(s.items, loaded) ==> ItemPlaced(s, i)
  {
    var rows := Rows(s.items, loaded);
    forall i | i in rows ensures ItemPlaced(s, i) {
      var a :| 0 <= a < |rows| && rows[a] == i;
      assert s.items[loaded[a]].value == i;
    }
  }

  lemma CancelledFulfilled(s: Store, fulfillment: nat, loaded: seq<nat>, l: nat)
    requires Exists(s, fulfillment) && AllPresent(s.items, loaded)
    requires forall i :: i in Rows(s.items, loaded) ==> i.line < |s.lines|
    requires l < |s.lines|
    ensures CancelWaiting(s, fulfillment, loaded).lines[l].fulfilled
         == s.lines[l].fulfilled - FirstQuantity(Rows(s.items, loaded), l)
    ensures CancelWaiting(s, fulfillment, loaded).lines[l].quantity == s.lines[l].quantity
  {
    var rows := Rows(s.items, loaded);
    var copies := Copies(s.lines, rows);
    forall a | 0 <= a < |rows|
      ensures rows[a] in rows
      ensures copies[a] == Copy(rows[a].line, s.lines[rows[a].line].fulfilled - rows[a].quantity)
    {
      CopiesAt(s.lines, rows, a);
    }
    WrittenByFirst(s.lines, rows, copies, l);
  }

  lemma CancelledLine(s: Store, fulfillment: nat, loaded: seq<nat>, l: nat)
    requires Balanced(s) && Exists(s, fulfillment) && Loads(s, fulfillment, loaded)
    requires AllPresent(s.items, loaded)
    requires forall i :: i in Rows(s.items, loaded) ==> ItemPlaced(s, i)
    requires l < |s.lines|
    ensures LineBalanced(CancelWaiting(s, fulfillment, loaded), l) <==> LaterAreZero(Rows(s.items, loaded), l)
  {
    var rows := Rows(s.items, loaded);
    var r := CancelWaiting(s, fulfillment, loaded);
    LoadedSum(s, fulfillment, loaded, l);
    CancelledFulfilled(s, fulfillment, loaded, l);
    FirstIsAll(rows, l);
    RemovalSum(s.items, fulfillment, l);
    assert LineBalanced(s, l);
    RemainingNonNegative(s, fulfillment, l);
    FirstNonNegative(rows, l);
  }

  lemma RemainingNonNegative(s: Store, fulfillment: nat, l: nat)
    requires Placed(s)
    ensures Sum(WithoutFulfillment(s.items, fulfillment), OfLine(l)) >= 0
  {
    var items := WithoutFulfillment(s.items, fulfillment);
    forall k | 0 <= k < |items| && items[k].Some? ensures items[k].value.quantity >= 0 {
      assert ItemPlaced(s, s.items[k].value);
    }
    SumNonNegative(items, OfLine(l));
  }

  lemma FirstNonNegative(rows: seq<Item>, line: nat)
    requires forall i :: i in rows ==> i.quantity >= 0
    ensures FirstQuantity(rows, line) >= 0
  {
  }

  lemma SumNonNegative(items: seq<Option<Item>>, f: Filter)
    requires NoneNegative(items)
    ensures Sum(items, f) >= 0
  {
  }

  /** Each fulfillment line lowers its own copy of the order line, and only the first copy is written. */
  lemma CancelKeepsBalance(s: Store, fulfillment: nat, loaded: seq<nat>)
    requires Balanced(s) && Exists(s, fulfillment) && Loads(s, fulfillment, loaded)
    ensures AllPresent(s.items, loaded) && forall i :: i in Rows(s.items, loaded) ==> i.line < |s.lines|
    ensures Balanced(CancelWaiting(s, fulfillment, loaded)) <==> CancelsOncePerLine(s.items, loaded)
  {
    var rows := Rows(s.items, loaded);
    RowsPlaced(s, loaded);
    var r := CancelWaiting(s, fulfillment, loaded);
    forall l | 0 <= l < |s.lines| ensures LineBalanced(r, l) <==> LaterAreZero(rows, l) {
      CancelledLine(s, fulfillment, loaded, l);
    }
    forall k | 0 <= k < |r.items| && r.items[k].Some? ensures ItemPlaced(r, r.items[k].value) {
      assert ItemPlaced(s, s.items[k].value);
    }
    if forall l :: 0 <= l < |s.lines| ==> LaterAreZero(rows, l) {
      forall a, b | 0 <= a < b < |loaded| && rows[a].line == rows[b].line ensures rows[b].quantity == 0 {
        assert rows[a] in rows;
        assert LaterAreZero(rows, rows[a].line);
      }
    }
  }

  /** A fulfillment that waits for approval with two lines of one order line. */
  function TwoRows(): Store {
    var row := Some(Item(0, 0, None, 1));
    Store([OrderLine(2, 2, 1.0)], [Some(Waiting)], [row, row])
  }

  lemma TwoRowsAreBalanced()
    ensures Balanced(TwoRows())
  {
    var s, row := TwoRows(), Some(Item(0, 0, None, 1));
    assert s.items[..1] == [row] && [row][..0] == [];
    assert Sum([row], OfLine(0)) == 1 && Sum(s.items, OfLine(0)) == 2;
    assert LineBalanced(s, 0);
  }

  lemma TwoRowsAreLoaded()
    ensures Loads(TwoRows(), 0, [0, 1]) && AllPresent(TwoRows().items, [0, 1])
    ensures !CancelsOncePerLine(TwoRows().items, [0, 1])
  {
    var loaded := [0, 1];
    assert loaded[0] == 0 && loaded[1] == 1;
    assert AllPresent(TwoRows().items, loaded);
    var rows := Rows(TwoRows().items, loaded);
    assert rows[0] == rows[1] == Item(0, 0, None, 1);
  }

  /** Cancelling it lowers the fulfilled quantity by the first line only. */
  lemma RepeatedLineIsNotReleased()
    ensures Balanced(TwoRows()) && Loads(TwoRows(), 0, [0, 1]) && AllPresent(TwoRows().items, [0, 1])
    ensures forall i :: i in Rows(TwoRows().items, [0, 1]) ==> i.line < |TwoRows().lines|
    ensures !Balanced(CancelWaiting(TwoRows(), 0, [0, 1]))
  {
    TwoRowsAreBalanced();
    TwoRowsAreLoaded();
    CancelKeepsBalance(TwoRows(), 0, [0, 1]);
  }
}
