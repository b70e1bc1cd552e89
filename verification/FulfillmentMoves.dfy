/** Moving fulfillment lines between fulfillments conserves them: what leaves the sources arrives in the target. */
module FulfillmentMoves {

  import opened Wrappers
  import opened Fulfillment

  /** Fulfillment lines of one order line, with one stock or any, in one fulfillment or any. */
  datatype Filter = Filter(line: nat, stock: Option<Option<nat>>, fulfillment: Option<nat>)

  predicate Matches(f: Filter, i: Item) {
    && i.line == f.line
    && (f.stock.Some? ==> f.stock.value == i.stock)
    && (f.fulfillment.Some? ==> f.fulfillment.value == i.fulfillment)
  }

  function Amount(o: Option<Item>, f: Filter): int {
    if o.Some? && Matches(f, o.value) then o.value.quantity else 0
  }

  /** The total quantity of the fulfillment lines that match. */
  function Sum(items: seq<Option<Item>>, f: Filter): int {
    if items == [] then 0 else Sum(items[..|items| - 1], f) + Amount(items[|items| - 1], f)
  }

  lemma {:induction false} SumUpdate(items: seq<Option<Item>>, k: nat, o: Option<Item>, f: Filter)
    requires k < |items|
    ensures Sum(items[k := o], f) == Sum(items, f) - Amount(items[k], f) + Amount(o, f)
  {
    var n := |items| - 1;
    var after := items[k := o];
    if k == n {
      assert after[..n] == items[..n];
    } else {
      assert after[..n] == items[..n][k := o];
      SumUpdate(items[..n], k, o, f);
    }
  }

  lemma SumAppend(items: seq<Option<Item>>, o: Option<Item>, f: Filter)
    ensures Sum(items + [o], f) == Sum(items, f) + Amount(o, f)
  {
    assert (items + [o])[..|items|] == items;
  }

  lemma AddSums(items: seq<Option<Item>>, k: nat, more: int, f: Filter)
    requires k < |items| && items[k].Some?
    ensures Sum(Add(items, k, more), f) == Sum(items, f) + (if Matches(f, items[k].value) then more else 0)
  {
    SumUpdate(items, k, Some(items[k].value.(quantity := items[k].value.quantity + more)), f);
  }

  // --- One request ---

  /** The listed lines are in the target, and no source is among them. */
  predicate Apart(items: seq<Option<Item>>, requests: seq<ItemRequest>, listed: seq<nat>, target: nat) {
    && (forall k :: k in listed ==> k < |items| && items[k].Some? && items[k].value.fulfillment == target)
    && (forall q :: q in requests ==> q.item !in listed)
  }

  predicate NoneNegative(items: seq<Option<Item>>) {
    forall k :: 0 <= k < |items| && items[k].Some? ==> items[k].value.quantity >= 0
  }

  predicate AskNonNegative(requests: seq<ItemRequest>) {
    forall q :: q in requests ==> q.quantity >= 0
  }

  /** How much a request takes from its source. */
  function Taken(items: seq<Option<Item>>, q: ItemRequest): int
    requires q.item < |items|
  {
    if items[q.item].None? then 0 else Min(items[q.item].value.quantity, q.quantity)
  }

  /** A fulfillment line with another quantity and nothing else changed. */
  predicate SameBut(o: Option<Item>, p: Option<Item>, quantity: int) {
    o.Some? && p == Some(o.value.(quantity := quantity))
  }

  /** Where a request finds its moved quantity again: `stocks` and order line are those of the source. */
  lemma {:induction false} GainSums(items: seq<Option<Item>>, listed: seq<nat>, source: Item, target: nat, moved: int,
                                    f: Filter)
    requires moved >= 0
    requires forall k :: k in listed && k < |items| && items[k].Some? ==> items[k].value.fulfillment == target
    ensures Sum(Gain(items, listed, source, target, moved), f)
         == Sum(items, f) + (if Matches(f, source.(fulfillment := target)) then moved else 0)
  {
    var found := FindItem(items, listed, source.line, source.stock);
    if found.Some? {
      AddSums(items, found.value, moved, f);
      assert items[found.value].value.(quantity := 0) == source.(fulfillment := target, quantity := 0);
    } else if moved > 0 {
      SumAppend(items, Some(Item(target, source.line, source.stock, moved)), f);
    }
  }

  /** The source loses exactly what the target gains, and nothing else changes. */
  lemma RequestMoves(m: Moving, q: ItemRequest, listed: seq<nat>, target: nat, f: Filter)
    requires q.item < |m.items|
    requires Apart(m.items, [q], listed, target)
    requires NoneNegative(m.items) && q.quantity >= 0
    ensures
      var source := m.items[q.item];
      Sum(MoveItem(m, q, listed, target).items, f) == Sum(m.items, f)
        + (if source.Some? && Matches(f, source.value.(fulfillment := target)) then Taken(m.items, q) else 0)
        - (if source.Some? && Matches(f, source.value) then Taken(m.items, q) else 0)
  {
    if m.items[q.item].Some? {
      var source := m.items[q.item].value;
      var moved := Min(source.quantity, q.quantity);
      var after := Gain(m.items, listed, source, target, moved);
      GainSums(m.items, listed, source, target, moved, f);
      assert q in [q];
      assert after[q.item] == m.items[q.item];
      AddSums(after, q.item, -moved, f);
    }
  }

  /** What one request does to every row. */
  lemma RequestRows(m: Moving, q: ItemRequest, listed: seq<nat>, target: nat)
    requires q.item < |m.items|
    requires Apart(m.items, [q], listed, target)
    requires NoneNegative(m.items) && q.quantity >= 0
    ensures
      var r := MoveItem(m, q, listed, target);
      && (forall k :: 0 <= k < |m.items| && k !in listed && k != q.item ==> r.items[k] == m.items[k])
      && (forall k :: 0 <= k < |m.items| && m.items[k].Some? ==>
            r.items[k].Some? && m.items[k].value.(quantity := 0) == r.items[k].value.(quantity := 0))
      && (forall k :: 0 <= k < |m.items| && m.items[k].None? ==> r.items[k].None?)
      && (m.items[q.item].Some? ==>
            r.items[q.item].value.quantity == m.items[q.item].value.quantity - Taken(m.items, q))
      && (forall k :: k in listed ==> r.items[k].value.quantity >= m.items[k].value.quantity)
      && (forall k :: |m.items| <= k < |r.items| ==>
            r.items[k].Some? && r.items[k].value.fulfillment == target && r.items[k].value.quantity > 0)
      && r.emptied == (if r.items[q.item].Some? && r.items[q.item].value.quantity == 0 then m.emptied + {q.item}
                       else m.emptied)
      && NoneNegative(r.items)
  {
    assert q in [q];
  }

  // --- Any number of requests ---

  /** The total requested of a fulfillment line. */
  function Asked(requests: seq<ItemRequest>, k: nat): int {
    if requests == [] then 0 else (if requests[0].item == k then requests[0].quantity else 0) + Asked(requests[1..], k)
  }

  predicate IsSource(requests: seq<ItemRequest>, k: nat) {
    exists q :: q in requests && q.item == k
  }

  lemma {:induction false} AskedNonNegative(requests: seq<ItemRequest>, k: nat)
    requires AskNonNegative(requests)
    ensures Asked(requests, k) >= 0
    ensures Asked(requests, k) != 0 ==> IsSource(requests, k)
  {
    if requests != [] {
      AskedNonNegative(requests[1..], k);
      assert requests[0] in requests;
      assert IsSource(requests[1..], k) ==> IsSource(requests, k);
    }
  }

  /** A row that is not in the target has lost the smaller of its quantity and what was asked of it. */
  predicate Lost(before: Option<Item>, after: Option<Item>, asked: int) {
    if before.None? then after.None?
    else SameBut(before, after, before.value.quantity - Min(before.value.quantity, asked))
  }

  predicate Grown(before: Option<Item>, after: Option<Item>) {
    before.Some? && after.Some? && SameBut(before, after, after.value.quantity)
      && after.value.quantity >= before.value.quantity
  }

  predicate OnlyMoved(before: seq<Option<Item>>, after: seq<Option<Item>>, requests: seq<ItemRequest>, listed: seq<nat>)
    requires |before| <= |after|
  {
    && (forall k :: 0 <= k < |before| && k !in listed ==> Lost(before[k], after[k], Asked(requests, k)))
    && (forall k :: k in listed && k < |before| ==> Grown(before[k], after[k]))
  }

  lemma LostMore(before: Option<Item>, between: Option<Item>, after: Option<Item>, first: int, more: int)
    requires Lost(before, between, first) && Lost(between, after, more) && first >= 0 && more >= 0
    ensures Lost(before, after, first + more)
  {
  }

  lemma GrownMore(before: Option<Item>, between: Option<Item>, after: Option<Item>)
    requires Grown(before, between) && Grown(between, after)
    ensures Grown(before, after)
  {
  }

  /** What the first request does, and that the others can follow. */
  lemma FirstMoves(m: Moving, requests: seq<ItemRequest>, listed: seq<nat>, target: nat)
    requires requests != [] && ItemsKnown(m.items, requests)
    requires Apart(m.items, requests, listed, target)
    requires NoneNegative(m.items) && AskNonNegative(requests)
    ensures requests[0] in requests && requests[0].quantity >= 0
    ensures
      var next := MoveItem(m, requests[0], listed, target);
      && |m.items| <= |next.items| && NoneNegative(next.items)
      && ItemsKnown(next.items, requests[1..]) && Apart(next.items, requests[1..], listed, target)
      && (forall k :: 0 <= k < |m.items| && k !in listed ==>
            Lost(m.items[k], next.items[k], if requests[0].item == k then requests[0].quantity else 0))
      && (forall k :: k in listed && k < |m.items| ==> Grown(m.items[k], next.items[k]))
  {
    assert requests[0] in requests;
    RequestRows(m, requests[0], listed, target);
  }

  lemma {:induction false} MovedAfterFirst(before: seq<Option<Item>>, between: seq<Option<Item>>,
                                           after: seq<Option<Item>>, requests: seq<ItemRequest>, listed: seq<nat>)
    requires requests != [] && AskNonNegative(requests) && requests[0].quantity >= 0
    requires |before| <= |between| <= |after|
    requires forall k :: 0 <= k < |before| && k !in listed ==>
      Lost(before[k], between[k], if requests[0].item == k then requests[0].quantity else 0)
    requires forall k :: k in listed && k < |before| ==> Grown(before[k], between[k])
    requires OnlyMoved(between, after, requests[1..], listed)
    ensures OnlyMoved(before, after, requests, listed)
  {
    var q, rest := requests[0], requests[1..];
    forall k | 0 <= k < |before| && k !in listed ensures Lost(before[k], after[k], Asked(requests, k)) {
      AskedNonNegative(rest, k);
      LostMore(before[k], between[k], after[k], if q.item == k then q.quantity else 0, Asked(rest, k));
    }
    forall k | k in listed && k < |before| ensures Grown(before[k], after[k]) {
      GrownMore(before[k], between[k], after[k]);
    }
  }

  lemma {:induction false} ItemsMove(m: Moving, requests: seq<ItemRequest>, listed: seq<nat>, target: nat)
    requires ItemsKnown(m.items, requests)
    requires Apart(m.items, requests, listed, target)
    requires NoneNegative(m.items) && AskNonNegative(requests)
    ensures OnlyMoved(m.items, MoveItems(m, requests, listed, target).items, requests, listed)
    decreases |requests|
  {
    if requests != [] {
      var q := requests[0];
      var rest := requests[1..];
      var next := MoveItem(m, q, listed, target);
      FirstMoves(m, requests, listed, target);
      ItemsMove(next, rest, listed, target);
      MovedAfterFirst(m.items, next.items, MoveItems(next, rest, listed, target).items, requests, listed);
    }
  }

  predicate BelongsTo(row: Option<Item>, target: nat) {
    row.Some? && row.value.fulfillment == target && row.value.quantity > 0
  }

  predicate AllBelong(items: seq<Option<Item>>, n: nat, target: nat) {
    forall k :: n <= k < |items| ==> BelongsTo(items[k], target)
  }

  /** Every created line belongs to the target. */
  lemma {:induction false} CreatedInTarget(m: Moving, requests: seq<ItemRequest>, listed: seq<nat>, target: nat)
    requires ItemsKnown(m.items, requests)
    requires Apart(m.items, requests, listed, target)
    requires NoneNegative(m.items) && AskNonNegative(requests)
    ensures AllBelong(MoveItems(m, requests, listed, target).items, |m.items|, target)
    decreases |requests|
  {
    if requests != [] {
      var q := requests[0];
      var rest := requests[1..];
      var next := MoveItem(m, q, listed, target);
      assert q in requests;
      RequestRows(m, q, listed, target);
      CreatedInTarget(next, rest, listed, target);
      ItemsMove(next, rest, listed, target);
      var r := MoveItems(next, rest, listed, target);
      assert r == MoveItems(m, requests, listed, target);
      forall k | |m.items| <= k < |r.items| ensures BelongsTo(r.items[k], target) {
        if k < |next.items| {
          NotAsked(m.items, rest, k);
          assert Lost(next.items[k], r.items[k], 0);
        }
      }
    }
  }

  lemma NotAsked(items: seq<Option<Item>>, requests: seq<ItemRequest>, k: nat)
    requires ItemsKnown(items, requests) && AskNonNegative(requests) && |items| <= k
    ensures Asked(requests, k) == 0
  {
    AskedNonNegative(requests, k);
  }

  /** Exactly the sources that have nothing left are deleted. */
  lemma {:induction false} EmptiedSources(m: Moving, requests: seq<ItemRequest>, listed: seq<nat>, target: nat)
    requires ItemsKnown(m.items, requests)
    requires Apart(m.items, requests, listed, target)
    requires NoneNegative(m.items) && AskNonNegative(requests)
    ensures
      var r := MoveItems(m, requests, listed, target);
      forall k: nat :: k in r.emptied <==>
        k in m.emptied || (IsSource(requests, k) && r.items[k].Some? && r.items[k].value.quantity == 0)
    decreases |requests|
  {
    if requests != [] {
      var q := requests[0];
      var rest := requests[1..];
      var next := MoveItem(m, q, listed, target);
      assert q in requests;
      RequestRows(m, q, listed, target);
      EmptiedSources(next, rest, listed, target);
      ItemsMove(next, rest, listed, target);
      var r := MoveItems(next, rest, listed, target);
      forall k: nat ensures IsSource(requests, k) <==> k == q.item || IsSource(rest, k) {
        assert IsSource(rest, k) ==> IsSource(requests, k);
      }
      AskedNonNegative(rest, q.item);
      assert Lost(next.items[q.item], r.items[q.item], Asked(rest, q.item));
    }
  }

  /** The total quantity taken from the lines that match. */
  function TakenAll(items: seq<Option<Item>>, requests: seq<ItemRequest>, f: Filter, n: nat): int
    requires n <= |items|
  {
    if n == 0 then 0
    else
      TakenAll(items, requests, f, n - 1)
      + if items[n - 1].Some? && Matches(f, items[n - 1].value)
        then Min(items[n - 1].value.quantity, Asked(requests, n - 1)) else 0
  }

  /** No source is in the target fulfillment itself. */
  predicate FromElsewhere(items: seq<Option<Item>>, requests: seq<ItemRequest>, target: nat)
    requires ItemsKnown(items, requests)
  {
    forall q :: q in requests && items[q.item].Some? ==> items[q.item].value.fulfillment != target
  }

  function Anywhere(f: Filter): Filter { f.(fulfillment := None) }

  lemma {:induction false} TakenStep(items: seq<Option<Item>>, next: seq<Option<Item>>, requests: seq<ItemRequest>,
                                     f: Filter, n: nat)
    requires requests != [] && ItemsKnown(items, requests)
    requires n <= |items| <= |next|
    requires NoneNegative(items) && AskNonNegative(requests)
    requires forall k :: 0 <= k < n && (Asked(requests, k) != 0 || k == requests[0].item) ==>
      Lost(items[k], next[k], if k == requests[0].item then requests[0].quantity else 0)
    requires forall k :: 0 <= k < n && items[k].Some? ==>
      next[k].Some? && items[k].value.(quantity := 0) == next[k].value.(quantity := 0) && next[k].value.quantity >= 0
    requires forall k :: 0 <= k < n && items[k].None? ==> next[k].None?
    ensures
      var q := requests[0];
      TakenAll(items, requests, f, n) == TakenAll(next, requests[1..], f, n)
        + if q.item < n && items[q.item].Some? && Matches(f, items[q.item].value) then Taken(items, q) else 0
  {
    if n > 0 {
      TakenStep(items, next, requests, f, n - 1);
      assert requests[0] in requests;
      AskedNonNegative(requests[1..], n - 1);
    }
  }

  lemma TakenNew(items: seq<Option<Item>>, requests: seq<ItemRequest>, f: Filter, n: nat)
    requires n <= |items| && ItemsKnown(items[..n], requests)
    requires AskNonNegative(requests) && NoneNegative(items)
    ensures TakenAll(items, requests, f, |items|) == TakenAll(items, requests, f, n)
    decreases |items| - n
  {
    if n < |items| {
      assert forall q :: q in requests ==> q.item < n;
      AskedNonNegative(requests, n);
      assert ItemsKnown(items[..n + 1], requests);
      TakenNew(items, requests, f, n + 1);
    }
  }

  /** Over all fulfillments the total of every order line and stock stays. */
  lemma {:induction false} TotalsStay(m: Moving, requests: seq<ItemRequest>, listed: seq<nat>, target: nat, f: Filter)
    requires ItemsKnown(m.items, requests)
    requires Apart(m.items, requests, listed, target)
    requires NoneNegative(m.items) && AskNonNegative(requests)
    requires f.fulfillment.None?
    ensures Sum(MoveItems(m, requests, listed, target).items, f) == Sum(m.items, f)
    decreases |requests|
  {
    if requests != [] {
      var q := requests[0];
      assert q in requests;
      RequestRows(m, q, listed, target);
      RequestMoves(m, q, listed, target, f);
      TotalsStay(MoveItem(m, q, listed, target), requests[1..], listed, target, f);
    }
  }

  lemma TakenFirst(m: Moving, requests: seq<ItemRequest>, listed: seq<nat>, target: nat, f: Filter)
    requires requests != [] && ItemsKnown(m.items, requests)
    requires Apart(m.items, requests, listed, target)
    requires NoneNegative(m.items) && AskNonNegative(requests)
    ensures requests[0] in requests
    ensures
      var q := requests[0];
      var next := MoveItem(m, q, listed, target);
      TakenAll(m.items, requests, f, |m.items|) == TakenAll(next.items, requests[1..], f, |next.items|)
        + if m.items[q.item].Some? && Matches(f, m.items[q.item].value) then Taken(m.items, q) else 0
  {
    var q := requests[0];
    var next := MoveItem(m, q, listed, target);
    assert q in requests;
    RequestRows(m, q, listed, target);
    forall k | 0 <= k < |m.items| && (Asked(requests, k) != 0 || k == requests[0].item)
      ensures Lost(m.items[k], next.items[k], if k == requests[0].item then requests[0].quantity else 0)
    {
      AskedNonNegative(requests, k);
    }
    TakenStep(m.items, next.items, requests, f, |m.items|);
    TakenNew(next.items, requests[1..], f, |m.items|);
  }

  /** The target gains all that was taken from the sources. */
  lemma {:induction false} TargetGains(m: Moving, requests: seq<ItemRequest>, listed: seq<nat>, target: nat, f: Filter)
    requires ItemsKnown(m.items, requests)
    requires Apart(m.items, requests, listed, target)
    requires FromElsewhere(m.items, requests, target)
    requires NoneNegative(m.items) && AskNonNegative(requests)
    requires f.fulfillment == Some(target)
    ensures Sum(MoveItems(m, requests, listed, target).items, f)
         == Sum(m.items, f) + TakenAll(m.items, requests, Anywhere(f), |m.items|)
    decreases |requests|
  {
    if requests == [] {
      NothingTaken(m.items, Anywhere(f), |m.items|);
    } else {
      var q := requests[0];
      assert q in requests;
      RequestRows(m, q, listed, target);
      RequestMoves(m, q, listed, target, f);
      TakenFirst(m, requests, listed, target, Anywhere(f));
      TargetGains(MoveItem(m, q, listed, target), requests[1..], listed, target, f);
    }
  }

  lemma NothingTaken(items: seq<Option<Item>>, f: Filter, n: nat)
    requires n <= |items| && NoneNegative(items)
    ensures TakenAll(items, [], f, n) == 0
  {
    if n > 0 {
      NothingTaken(items, f, n - 1);
    }
  }

  lemma {:induction false} DeleteSums(items: seq<Option<Item>>, gone: set<nat>, f: Filter)
    requires forall k :: 0 <= k < |items| && k in gone && items[k].Some? ==> items[k].value.quantity == 0
    ensures Sum(Delete(items, gone), f) == Sum(items, f)
  {
    if items != [] {
      var n := |items| - 1;
      DeleteSums(items[..n], gone, f);
      assert Delete(items, gone)[..n] == Delete(items[..n], gone);
    }
  }

  // --- The whole move ---

  /** A source that has nothing left is deleted; another row outside the target lost what was taken. */
  predicate Settled(before: Option<Item>, after: Option<Item>, asked: int, source: bool) {
    if before.Some? && source && before.value.quantity <= asked then after.None? else Lost(before, after, asked)
  }

  /** Every source loses the smaller of quantity and request, and exactly the sources left empty are deleted. */
  lemma TransferRows(items: seq<Option<Item>>, requests: seq<ItemRequest>, listed: seq<nat>, target: nat)
    requires ItemsKnown(items, requests)
    requires Apart(items, requests, listed, target)
    requires NoneNegative(items) && AskNonNegative(requests)
    ensures
      var r := Transfer(items, requests, listed, target);
      && (forall k :: 0 <= k < |items| && k !in listed ==>
            Settled(items[k], r[k], Asked(requests, k), IsSource(requests, k)))
      && (forall k :: k in listed ==> Grown(items[k], r[k]))
      && AllBelong(r, |items|, target)
  {
    var m := MoveItems(Moving(items, {}), requests, listed, target);
    CreatedInTarget(Moving(items, {}), requests, listed, target);
    ItemsMove(Moving(items, {}), requests, listed, target);
    EmptiedSources(Moving(items, {}), requests, listed, target);
    assert forall k: nat :: IsSource(requests, k) ==> k < |items| && k !in listed;
    forall k | 0 <= k < |items| && k !in listed
      ensures Settled(items[k], Transfer(items, requests, listed, target)[k], Asked(requests, k), IsSource(requests, k))
    {
      AskedNonNegative(requests, k);
      assert Lost(items[k], m.items[k], Asked(requests, k));
    }
  }

  /** Over all fulfillments every total stays, and the target gains exactly what the sources lose. */
  lemma {:induction false} TransferConserves(items: seq<Option<Item>>, requests: seq<ItemRequest>, listed: seq<nat>,
                                             target: nat, f: Filter)
    requires ItemsKnown(items, requests)
    requires Apart(items, requests, listed, target)
    requires FromElsewhere(items, requests, target)
    requires NoneNegative(items) && AskNonNegative(requests)
    ensures
      var r := Transfer(items, requests, listed, target);
      && Sum(r, Anywhere(f)) == Sum(items, Anywhere(f))
      && Sum(r, f.(fulfillment := Some(target))) == Sum(items, f.(fulfillment := Some(target)))
                                                   + TakenAll(items, requests, Anywhere(f), |items|)
  {
    var m := MoveItems(Moving(items, {}), requests, listed, target);
    EmptiedSources(Moving(items, {}), requests, listed, target);
    TotalsStay(Moving(items, {}), requests, listed, target, Anywhere(f));
    TargetGains(Moving(items, {}), requests, listed, target, f.(fulfillment := Some(target)));
    DeleteSums(m.items, m.emptied, Anywhere(f));
    DeleteSums(m.items, m.emptied, f.(fulfillment := Some(target)));
  }

  predicate SameKind(i: Item, j: Item) {
    i.line == j.line && i.stock == j.stock
  }

  /** No listed line has the order line and the stock of the new row. */
  predicate Unlisted(items: seq<Option<Item>>, listed: seq<nat>, row: Item) {
    forall k :: k in listed && k < |items| && items[k].Some? ==> !SameKind(items[k].value, row)
  }

  predicate AllUnlisted(items: seq<Option<Item>>, listed: seq<nat>, after: seq<Option<Item>>) {
    forall k :: |items| <= k < |after| && after[k].Some? ==> Unlisted(items, listed, after[k].value)
  }

  /** A new line is created only for an order line and a stock that the listed lines do not have. */
  lemma {:induction false} MergesWhenItCan(m: Moving, requests: seq<ItemRequest>, listed: seq<nat>, target: nat)
    requires ItemsKnown(m.items, requests)
    requires Apart(m.items, requests, listed, target)
    requires NoneNegative(m.items) && AskNonNegative(requests)
    ensures AllUnlisted(m.items, listed, MoveItems(m, requests, listed, target).items)
    decreases |requests|
  {
    if requests != [] {
      var q := requests[0];
      var rest := requests[1..];
      var next := MoveItem(m, q, listed, target);
      assert q in requests;
      RequestRows(m, q, listed, target);
      MergesWhenItCan(next, rest, listed, target);
      ItemsMove(next, rest, listed, target);
      var r := MoveItems(next, rest, listed, target).items;
      forall k | |m.items| <= k < |r| && r[k].Some? ensures Unlisted(m.items, listed, r[k].value) {
        if k < |next.items| {
          NotAsked(m.items, rest, k);
          assert Lost(next.items[k], r[k], 0);
        } else {
          assert Unlisted(next.items, listed, r[k].value);
        }
      }
    }
  }
}
