/** A customer record can get lost in the transaction flow: two requests of one customer take it. */
module CheckoutStrays {
  import opened Wrappers
  import opened CheckoutProtocol
  import opened CheckoutAccounting
  import opened CheckoutRecords
  import opened CheckoutOrders

  const OLD := Order(5, Some(0), 1, Unfulfilled, None)
  const MADE := Order(7, Some(0), 1, Unconfirmed, Some(0))
  const EVENT0 := Arrive(0, WithTransactions(true), 7, 1, true)
  const EVENT1 := TakeUsage(0, false, false)
  const EVENT2 := CreateFromCheckout(0, true, Success(false))
  const EVENT3 := ExpireOrders({1})
  const EVENT4 := Arrive(1, WithTransactions(true), 8, 1, true)
  const EVENT5 := TakeUsage(1, true, false)

  /** A once-per-customer voucher, an order of customer 1 that took it, and two checkouts with it. */
  function OnceVoucher(): State {
    State(map[0 := Voucher(Some(9), true)], map[0 := 1], {(0, 1)}, map[7 := Some(0), 8 := Some(0)], map[0 := OLD], 1,
        map[], [], map[0 := 0])
  }

  function Waits(pc: Pc): Run {
    Run(WithTransactions(true), 7, 1, pc, Some(0), false, false)
  }

  /** After the second order was made without taking the record. */
  function SecondOrdered(): State {
    OnceVoucher().(orders := map[0 := OLD, 1 := MADE], nextOrder := 2, checkouts := map[8 := Some(0)],
      runs := map[0 := Waits(Ended(Completed(1)))], created := [7], unslotted := map[0 := 1])
  }

  /** After that order expired. */
  function Freed(): State {
    SecondOrdered().(used := map[0 := 0], records := {}, orders := map[0 := OLD, 1 := MADE.(status := Expired)])
  }

  function TakenAgain(): State {
    Freed().(used := map[0 := 1], records := {(0, 1)},
      runs := map[0 := Waits(Ended(Completed(1))),
                  1 := Run(WithTransactions(true), 8, 1, Creating, Some(0), true, true)])
  }

  lemma StartIsInitial()
    ensures Initial(OnceVoucher()) && RecordsHeld(OnceVoucher(), {}, {}) && Once(OnceVoucher(), 0)
  {
    var s := OnceVoucher();
    assert Live(s.orders, 0) == {0};
    assert Holds(s, {}, LiveOrder(0), (0, 1));
  }

  lemma VoucherHasEnded()
    ensures Next(Next(OnceVoucher(), EVENT0), EVENT1) == OnceVoucher().(runs := map[0 := Waits(Creating)])
  {
    var s := Next(OnceVoucher(), EVENT0);
    assert s == OnceVoucher().(runs := map[0 := Waits(Starting)]);
    assert !Active(s, 0, false);
  }

  lemma OrderWithoutRecord()
    ensures Next(OnceVoucher().(runs := map[0 := Waits(Creating)]), EVENT2) == SecondOrdered()
  {
    var s := OnceVoucher().(runs := map[0 := Waits(Creating)]);
    assert Next(s, EVENT2) == Create(s, 0, Some(0), false, true);
    assert Inserted(s, 0, Some(0), false).orders == map[0 := OLD, 1 := MADE];
    assert s.checkouts - {7} == map[8 := Some(0)];
  }

  lemma ItsExpiryFreesRecord()
    ensures Next(SecondOrdered(), EVENT3) == Freed()
  {
    var s := SecondOrdered();
    assert Carrying(s.orders, {1}, 0) == {1};
    assert ReleasedByBatch(s.orders, {1}, (0, 1));
    assert MarkExpired(s.orders, {1}) == Freed().orders;
    assert Lowered(s, {1}) == map[0 := 0];
  }

  lemma RecordIsTakenAgain()
    ensures Next(Next(Freed(), EVENT4), EVENT5) == TakenAgain()
  {
    var waiting := Run(WithTransactions(true), 8, 1, Starting, Some(0), false, false);
    var s := Next(Freed(), EVENT4);
    assert s == Freed().(runs := map[0 := Waits(Ended(Completed(1))), 1 := waiting]);
    assert Next(s, EVENT5) == Take(s, 1, 0, Creating);
  }

  /** An order that was there before is not among the unrecorded ones. */
  lemma OldIsNotNew(s: State, t: State, o: OrderId)
    requires o in s.orders
    ensures o !in NewUnrecorded(s, t)
  {
  }

  lemma OneMore(s: State, events: seq<Event>, e: Event, o: OrderId)
    requires o in Behave(s, events).orders && o !in Unrecorded(s, events)
    ensures Behave(s, events + [e]) == Next(Behave(s, events), e) && o !in Unrecorded(s, events + [e])
  {
    BehaveOne(s, events, e);
    assert (events + [e])[..|events|] == events;
    OldIsNotNew(Behave(s, events), Behave(s, events + [e]), o);
  }

  lemma HalfWay(events: seq<Event>)
    requires events == [] + [EVENT0] + [EVENT1] + [EVENT2]
    ensures Behave(OnceVoucher(), events) == SecondOrdered() && 0 !in Unrecorded(OnceVoucher(), events)
  {
    var s := OnceVoucher();
    VoucherHasEnded();
    OrderWithoutRecord();
    OneMore(s, [], EVENT0, 0);
    OneMore(s, [] + [EVENT0], EVENT1, 0);
    OneMore(s, [] + [EVENT0] + [EVENT1], EVENT2, 0);
  }

  lemma OtherHalf(events: seq<Event>)
    requires Behave(OnceVoucher(), events) == SecondOrdered() && 0 !in Unrecorded(OnceVoucher(), events)
    ensures
      var all := events + [EVENT3] + [EVENT4] + [EVENT5];
      Behave(OnceVoucher(), all) == TakenAgain() && 0 !in Unrecorded(OnceVoucher(), all)
  {
    var s := OnceVoucher();
    ItsExpiryFreesRecord();
    RecordIsTakenAgain();
    OneMore(s, events, EVENT3, 0);
    OneMore(s, events + [EVENT3], EVENT4, 0);
    OneMore(s, events + [EVENT3] + [EVENT4], EVENT5, 0);
  }

  lemma BothHold(unrecorded: set<OrderId>)
    requires 0 !in unrecorded
    ensures Holds(TakenAgain(), unrecorded, LiveOrder(0), (0, 1)) && Holds(TakenAgain(), unrecorded, Request(1), (0, 1))
  {
  }

  /** A voucher ends while a request waits, so that its order does not take the record of the customer; when that order
      expires, it frees the record of an earlier order, and another request of the customer takes it. */
  lemma {:induction false} StrayExpiryFreesRecord() returns (events: seq<Event>)
    ensures var s := OnceVoucher();
            var t, unrecorded := Behave(s, events), Unrecorded(s, events);
            && Initial(s) && RecordsHeld(s, {}, {}) && Once(s, 0)
            && Holds(t, unrecorded, LiveOrder(0), (0, 1)) && Holds(t, unrecorded, Request(1), (0, 1))
  {
    StartIsInitial();
    var half := [] + [EVENT0] + [EVENT1] + [EVENT2];
    HalfWay(half);
    OtherHalf(half);
    events := half + [EVENT3] + [EVENT4] + [EVENT5];
    BothHold(Unrecorded(OnceVoucher(), events));
  }
}
