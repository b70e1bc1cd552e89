/** How many orders a checkout becomes, and what the transaction flow does not keep. */
module CheckoutOrders {
  import opened Wrappers
  import opened CheckoutProtocol
  import opened CheckoutAccounting

  /** Every request of the transaction flow deletes the checkout it completes. */
  predicate DeletingArrivals(events: seq<Event>) {
    forall i :: 0 <= i < |events| && events[i].Arrive? ==> events[i].flow.WithPayment? || events[i].flow.deletesCheckout
  }

  predicate Distinct(tokens: seq<Token>) {
    forall i, j :: 0 <= i < j < |tokens| ==> tokens[i] != tokens[j]
  }

  predicate CompletedKeeping(run: Run, t: Token) {
    run.flow == WithTransactions(false) && run.token == t && run.pc.Ended? && run.pc.outcome.Completed?
  }

  /** A request completed the checkout and kept it. */
  predicate KeptCheckout(s: State, t: Token) {
    exists r :: r in s.runs && CompletedKeeping(s.runs[r], t)
  }

  /** The checkout became at most one order, and is gone if it became one. */
  ghost predicate OneOrderOf(s: State, t: Token) {
    && (t in s.created ==> t !in s.checkouts)
    && (forall i, j :: 0 <= i < j < |s.created| && s.created[i] == t ==> s.created[j] != t)
    && (forall o, o' :: SameToken(s, o, o') && s.orders[o].token == t ==> o == o')
  }

  /** Orders made by requests match the tokens they were created for, and every checkout that no request kept became
      at most one. `known` are the checkouts at the start; older orders belong to none of them. */
  ghost predicate OneOrderEach(s: State, known: set<Token>) {
    && s.checkouts.Keys <= known
    && (forall t :: t in s.created ==> t in known)
    && (forall o :: o in s.orders ==>
        if s.orders[o].creator.Some? then s.orders[o].token in s.created else s.orders[o].token !in known)
    && (forall t :: KeptCheckout(s, t) || OneOrderOf(s, t))
  }

  /** Two orders that requests made from one checkout. */
  predicate SameToken(s: State, o: OrderId, o': OrderId) {
    o in s.orders && o' in s.orders && s.orders[o].creator.Some? && s.orders[o'].creator.Some?
    && s.orders[o].token == s.orders[o'].token
  }

  lemma CreatedOneOrder(s: State, t: State, r: RunId, voucher: Option<VoucherCode>, confirmed: bool, deletes: bool,
                        known: set<Token>, x: Token)
    requires Sane(s) && OneOrderEach(s, known) && OrderCreated(s, t, r, voucher, confirmed, deletes)
    ensures KeptCheckout(t, x) || OneOrderOf(t, x)
  {
    if KeptCheckout(s, x) {
      var q :| q in s.runs && CompletedKeeping(s.runs[q], x);
      assert q != r && t.runs[q] == s.runs[q];
    } else if x == s.runs[r].token && !deletes {
      assert CompletedKeeping(t.runs[r], x);
    } else {
      assert OneOrderOf(s, x);
      CreatedOnce(s, t, r, voucher, confirmed, deletes, x);
    }
  }

  lemma CreatedOnce(s: State, t: State, r: RunId, voucher: Option<VoucherCode>, confirmed: bool, deletes: bool,
                    x: Token)
    requires Sane(s) && OneOrderOf(s, x) && OrderCreated(s, t, r, voucher, confirmed, deletes)
    requires forall o :: o in s.orders && s.orders[o].creator.Some? ==> s.orders[o].token in s.created
    requires x == s.runs[r].token ==> deletes
    ensures OneOrderOf(t, x)
  {
    forall o, o' | SameToken(t, o, o') && t.orders[o].token == x ensures o == o' {
      if o in s.orders && o' in s.orders {
        assert SameToken(s, o, o');
      }
    }
  }

  lemma CreateKeepsOneOrder(s: State, t: State, r: RunId, voucher: Option<VoucherCode>, confirmed: bool, deletes: bool,
                            known: set<Token>)
    requires Sane(s) && OneOrderEach(s, known) && OrderCreated(s, t, r, voucher, confirmed, deletes)
    ensures OneOrderEach(t, known)
  {
    forall x ensures KeptCheckout(t, x) || OneOrderOf(t, x) {
      CreatedOneOrder(s, t, r, voucher, confirmed, deletes, known, x);
    }
  }

  /** Nothing new is created, and completed requests stay. */
  predicate NoNewOrders(s: State, t: State) {
    && t.created == s.created && t.checkouts.Keys <= s.checkouts.Keys
    && (forall o :: o in t.orders ==>
          o in s.orders && t.orders[o].creator == s.orders[o].creator && t.orders[o].token == s.orders[o].token)
    && (forall r :: r in s.runs && s.runs[r].pc.Ended? ==> r in t.runs && t.runs[r] == s.runs[r])
  }

  lemma NoNewOrdersKeepOne(s: State, t: State, known: set<Token>)
    requires OneOrderEach(s, known) && NoNewOrders(s, t)
    ensures OneOrderEach(t, known)
  {
    forall x ensures KeptCheckout(t, x) || OneOrderOf(t, x) {
      if KeptCheckout(s, x) {
        var q :| q in s.runs && CompletedKeeping(s.runs[q], x);
        assert CompletedKeeping(t.runs[q], x);
      } else {
        assert OneOrderOf(s, x);
        forall o, o' | SameToken(t, o, o') && t.orders[o].token == x ensures o == o' {
          assert SameToken(s, o, o');
        }
      }
    }
  }

  lemma EndedStays(s: State, e: Event)
    requires IsRunEvent(e) && e.run in s.runs && s.runs[e.run].pc.Ended?
    ensures Next(s, e) == s
  {
  }

  lemma OthersStay(s: State, e: Event)
    requires !IsRunEvent(e)
    ensures NoNewOrders(s, Next(s, e))
  {
    OthersChange(s, e);
  }

  lemma MovesMakeNoOrders(s: State, t: State, r: RunId)
    requires Moves(s, t, r) && !s.runs[r].pc.Ended?
    ensures NoNewOrders(s, t)
  {
  }

  lemma RunStepKeepsOneOrder(s: State, t: State, r: RunId, known: set<Token>)
    requires Sane(s) && OneOrderEach(s, known) && RunStep(s, t, r) && (r in s.runs ==> !s.runs[r].pc.Ended?)
    ensures OneOrderEach(t, known)
  {
    if Moves(s, t, r) {
      MovesMakeNoOrders(s, t, r);
      NoNewOrdersKeepOne(s, t, known);
    } else if t != s {
      var voucher, confirmed, deletes :| OrderCreated(s, t, r, voucher, confirmed, deletes);
      CreateKeepsOneOrder(s, t, r, voucher, confirmed, deletes, known);
    }
  }

  lemma StepKeepsOneOrder(s: State, e: Event, known: set<Token>)
    requires Sane(s) && OneOrderEach(s, known)
    ensures OneOrderEach(Next(s, e), known)
  {
    var t := Next(s, e);
    if !IsRunEvent(e) {
      OthersStay(s, e);
      NoNewOrdersKeepOne(s, t, known);
    } else if e.run in s.runs && s.runs[e.run].pc.Ended? {
      EndedStays(s, e);
    } else {
      RunEventIsRunStep(s, e);
      RunStepKeepsOneOrder(s, t, e.run, known);
    }
  }

  /** No order at the start belongs to a checkout that is still there. */
  ghost predicate FreshCheckouts(s: State) {
    Initial(s) && forall o :: o in s.orders ==> s.orders[o].token !in s.checkouts
  }

  lemma {:induction false} BehaviourKeepsOneOrder(s: State, events: seq<Event>)
    requires FreshCheckouts(s)
    ensures Sane(Behave(s, events)) && OneOrderEach(Behave(s, events), s.checkouts.Keys)
  {
    if events != [] {
      var before := events[..|events| - 1];
      BehaviourKeepsOneOrder(s, before);
      StepKeeps(Behave(s, before), events[|events| - 1], map[], 0);
      StepKeepsOneOrder(Behave(s, before), events[|events| - 1], s.checkouts.Keys);
    }
  }

  /** In every interleaving of both flows a checkout becomes two orders only if a request completed it and kept it. */
  lemma TwoOrdersNeedKeptCheckout(s: State, events: seq<Event>, t: Token, o: OrderId, o': OrderId)
    requires FreshCheckouts(s) && t in s.checkouts
    requires o in OrdersOf(Behave(s, events), t) && o' in OrdersOf(Behave(s, events), t) && o != o'
    ensures KeptCheckout(Behave(s, events), t)
  {
    BehaviourKeepsOneOrder(s, events);
    assert SameToken(Behave(s, events), o, o');
  }

  /** And that request came first: when a checkout becomes an order again, one that kept it has ended already. */
  lemma SecondOrderNeedsKeptCheckout(s: State, events: seq<Event>, e: Event, t: Token)
    requires FreshCheckouts(s) && t in Behave(s, events).created
    requires Next(Behave(s, events), e).created == Behave(s, events).created + [t]
    ensures KeptCheckout(Behave(s, events), t)
  {
    BehaviourKeepsOneOrder(s, events);
    var now := Behave(s, events);
    CreatesFromCheckout(now, e, t);
  }

  lemma CreatesFromCheckout(s: State, e: Event, t: Token)
    requires Sane(s) && Next(s, e).created == s.created + [t]
    ensures t in s.checkouts
  {
    var next := Next(s, e);
    assert |next.created| != |s.created|;
    if IsRunEvent(e) {
      RunEventIsRunStep(s, e);
      var voucher, confirmed, deletes :| OrderCreated(s, next, e.run, voucher, confirmed, deletes);
      assert next.created == s.created + [s.runs[e.run].token];
      assert (s.created + [t])[|s.created|] == t;
    } else {
      OthersChange(s, e);
    }
  }

  ghost predicate NoneKeeps(s: State) {
    forall r :: r in s.runs ==> s.runs[r].flow.WithPayment? || s.runs[r].flow.deletesCheckout
  }

  lemma StepStaysNoneKeeps(s: State, e: Event)
    requires Sane(s) && NoneKeeps(s) && (e.Arrive? ==> e.flow.WithPayment? || e.flow.deletesCheckout)
    ensures NoneKeeps(Next(s, e))
  {
    if IsRunEvent(e) {
      RunEventIsRunStep(s, e);
      RunStepStaysNoneKeeps(s, Next(s, e), e.run);
    } else {
      OthersChange(s, e);
    }
  }

  lemma RunStepStaysNoneKeeps(s: State, t: State, r: RunId)
    requires NoneKeeps(s) && RunStep(s, t, r)
    ensures NoneKeeps(t)
  {
    if t != s && !Moves(s, t, r) {
      var voucher, confirmed, deletes :| OrderCreated(s, t, r, voucher, confirmed, deletes);
    }
  }

  lemma {:induction false} BehaviourStaysNoneKeeps(s: State, events: seq<Event>)
    requires Initial(s) && DeletingArrivals(events)
    ensures NoneKeeps(Behave(s, events))
  {
    if events != [] {
      var before := events[..|events| - 1];
      BehaviourStaysNoneKeeps(s, before);
      BehaviourKeeps(s, before, map[], 0);
      StepStaysNoneKeeps(Behave(s, before), events[|events| - 1]);
    }
  }

  /** In every interleaving of the payment flow and the checkout-deleting transaction flow, no checkout ever
      becomes two orders. */
  lemma {:induction false} AtMostOneOrderEver(s: State, events: seq<Event>)
    requires FreshCheckouts(s) && DeletingArrivals(events)
    ensures Distinct(Behave(s, events).created)
    ensures
      var now := Behave(s, events);
      forall t, o, o' :: t in s.checkouts && o in OrdersOf(now, t) && o' in OrdersOf(now, t) ==> o == o'
  {
    BehaviourKeepsOneOrder(s, events);
    BehaviourStaysNoneKeeps(s, events);
    var now := Behave(s, events);
    forall t ensures OneOrderOf(now, t) {
      assert !KeptCheckout(now, t);
    }
    forall i, j | 0 <= i < j < |now.created| ensures now.created[i] != now.created[j] {
      assert OneOrderOf(now, now.created[i]);
    }
    forall t, o, o' | t in s.checkouts && o in OrdersOf(now, t) && o' in OrdersOf(now, t) ensures o == o' {
      assert OneOrderOf(now, t) && SameToken(now, o, o');
    }
  }

  /** A request about to lock its checkout, in an event in which the database does not fail. */
  predicate LocksCheckout(s: State, e: Event, r: RunId) {
    r in s.runs
    && match e
       case FirstTransaction(x, _, fault) => x == r && At(s, r, Starting) && s.runs[r].flow.WithPayment?
           && !fault.FirstDatabaseError?
       case SecondTransaction(x, result) => x == r && s.runs[r].pc.Paid? && !result.CreateDatabaseError?
       case CreateFromCheckout(x, _, result) => x == r && At(s, r, Creating) && !result.CreateDatabaseError?
       case _ => false
  }

  /** A request for a checkout that was completed, and that no request kept, finds it gone, creates nothing and
      returns the order made from it, as long as there is one. */
  lemma {:induction false} GoneCheckoutGivesItsOrder(s: State, events: seq<Event>, e: Event, r: RunId)
    requires FreshCheckouts(s) && LocksCheckout(Behave(s, events), e, r)
    requires Behave(s, events).runs[r].token in Behave(s, events).created
    requires !KeptCheckout(Behave(s, events), Behave(s, events).runs[r].token)
    ensures var t := Behave(s, events);
            var next := Next(t, e);
            && next.orders == t.orders && next.created == t.created
            && r in next.runs && next.runs[r].pc.Ended? && next.runs[r].pc.outcome.Returned?
            && forall o :: o in OrdersOf(t, t.runs[r].token) <==> next.runs[r].pc.outcome.found == Some(o)
  {
    BehaviourKeepsOneOrder(s, events);
    var t := Behave(s, events);
    var token := t.runs[r].token;
    var found := FindOrder(t, token);
    assert OneOrderOf(t, token);
    LocksNothing(t, e, r);
    forall o | o in OrdersOf(t, token) ensures found == Some(o) {
      assert found.value in OrdersOf(t, token);
      assert SameToken(t, o, found.value);
    }
  }

  lemma LocksNothing(s: State, e: Event, r: RunId)
    requires LocksCheckout(s, e, r) && s.runs[r].token !in s.checkouts
    ensures Next(s, e) == EndRun(s, r, Returned(FindOrder(s, s.runs[r].token)))
  {
    match e
    case FirstTransaction(_, inWindow, fault) => assert Next(s, e) == First(s, r, inWindow, fault);
    case SecondTransaction(_, result) => assert Next(s, e) == Second(s, r, result);
    case CreateFromCheckout(_, inWindow, result) => assert Next(s, e) == CreateWithTransactions(s, r, inWindow, result);
  }

  // ----- What is false of the transaction flow

  lemma BehaveOne(s: State, events: seq<Event>, e: Event)
    ensures Behave(s, events + [e]) == Next(Behave(s, events), e)
  {
    assert (events + [e])[..|events|] == events;
  }

  /** One voucher with a usage limit and one checkout that uses it. */
  function OneVoucher(used: nat, limit: nat): State {
    State(map[0 := Voucher(Some(limit), false)], map[0 := used], {}, map[7 := Some(0)], map[], 0, map[], [],
        map[0 := 0])
  }

  lemma OneVoucherIsInitial(used: nat, limit: nat)
    ensures FreshCheckouts(OneVoucher(used, limit)) && StartOf(OneVoucher(used, limit)) == map[0 := used]
  {
    assert Live(OneVoucher(used, limit).orders, 0) == {};
  }

  const WAITING := Run(WithTransactions(true), 7, 1, Creating, Some(0), false, false)

  function Waiting(): State {
    OneVoucher(1, 9).(runs := map[0 := WAITING])
  }

  function Ordered(): State {
    Waiting().(orders := map[0 := Order(7, Some(0), 1, Unconfirmed, Some(0))], nextOrder := 1, checkouts := map[],
      runs := map[0 := WAITING.(pc := Ended(Completed(0)))], created := [7], unslotted := map[0 := 1])
  }

  lemma EndedVoucherTakesNothing()
    ensures Next(Next(OneVoucher(1, 9), Arrive(0, WithTransactions(true), 7, 1, true)), TakeUsage(0, false, false))
        == Waiting()
  {
    var s := Next(OneVoucher(1, 9), Arrive(0, WithTransactions(true), 7, 1, true));
    assert s == OneVoucher(1, 9).(runs := map[0 := WAITING.(pc := Starting)]);
    assert !Active(s, 0, false);
  }

  lemma ItReachesTheOrder()
    ensures Next(Waiting(), CreateFromCheckout(0, false, Success(false))) == Ordered()
  {
    var s := Waiting();
    assert Next(s, CreateFromCheckout(0, false, Success(false))) == Create(s, 0, Some(0), false, true);
  }

  lemma TheOrderExpires()
    ensures Next(Ordered(), ExpireOrders({0})).used == map[0 := 0]
  {
    assert Carrying(Ordered().orders, {0}, 0) == {0};
  }

  /** A voucher whose window ends between loading the checkout and taking the usage takes no slot but still
      reaches the order; when the order expires, the counter falls below its start. */
  lemma {:induction false} SlotlessOrderLowersCounter() returns (events: seq<Event>)
    ensures var s := OneVoucher(1, 9);
            && Initial(s) && Counted(s, 0)
            && 0 in Behave(s, events).used && Behave(s, events).used[0] < StartOf(s)[0]
  {
    var s := OneVoucher(1, 9);
    OneVoucherIsInitial(1, 9);
    var e0, e1 := Arrive(0, WithTransactions(true), 7, 1, true), TakeUsage(0, false, false);
    var e2, e3 := CreateFromCheckout(0, false, Success(false)), ExpireOrders({0});
    EndedVoucherTakesNothing();
    ItReachesTheOrder();
    TheOrderExpires();
    BehaveOne(s, [], e0);
    BehaveOne(s, [] + [e0], e1);
    BehaveOne(s, [] + [e0] + [e1], e2);
    BehaveOne(s, [] + [e0] + [e1] + [e2], e3);
    events := [] + [e0] + [e1] + [e2] + [e3];
  }

  /** Two requests that keep the checkout make two orders from it. */
  lemma {:induction false} KeptCheckoutGivesTwoOrders() returns (events: seq<Event>)
    ensures FreshCheckouts(OneVoucher(0, 9)) && Behave(OneVoucher(0, 9), events).created == [7, 7]
  {
    var s := OneVoucher(0, 9);
    OneVoucherIsInitial(0, 9);
    var waiting := Run(WithTransactions(false), 7, 1, Creating, None, false, false);
    events := KeepingRequest(s, [], 0);
    var s1 := Behave(s, events);
    events := KeepingRequest(s, events, 1);
    assert s1.checkouts == s.checkouts;
  }

  /** A whole request of the transaction flow that keeps the checkout. */
  lemma {:induction false} KeepingRequest(s: State, events: seq<Event>, r: RunId) returns (more: seq<Event>)
    requires 7 in Behave(s, events).checkouts && r !in Behave(s, events).runs
    ensures var was, now := Behave(s, events), Behave(s, more);
            now.checkouts == was.checkouts && now.runs.Keys == was.runs.Keys + {r} && now.created == was.created + [7]
  {
    var e0, e1 := Arrive(r, WithTransactions(false), 7, 1, false), TakeUsage(r, true, false);
    var e2 := CreateFromCheckout(r, true, Success(true));
    BehaveOne(s, events, e0);
    BehaveOne(s, events + [e0], e1);
    BehaveOne(s, events + [e0] + [e1], e2);
    more := events + [e0] + [e1] + [e2];
    KeepingSteps(Behave(s, events), r);
  }

  lemma KeepingSteps(s: State, r: RunId)
    requires 7 in s.checkouts && r !in s.runs
    ensures var t := Next(Next(Next(s, Arrive(r, WithTransactions(false), 7, 1, false)), TakeUsage(r, true, false)),
                          CreateFromCheckout(r, true, Success(true)));
            t.checkouts == s.checkouts && t.runs.Keys == s.runs.Keys + {r} && t.created == s.created + [7]
  {
    var waiting := Run(WithTransactions(false), 7, 1, Creating, None, false, false);
    var t := Next(Next(s, Arrive(r, WithTransactions(false), 7, 1, false)), TakeUsage(r, true, false));
    assert t == s.(runs := s.runs[r := waiting]);
    KeepingCreates(t, r);
  }

  lemma KeepingCreates(s: State, r: RunId)
    requires 7 in s.checkouts && r in s.runs
        && s.runs[r] == Run(WithTransactions(false), 7, 1, Creating, None, false, false)
    ensures var t := Next(s, CreateFromCheckout(r, true, Success(true)));
            t.checkouts == s.checkouts && t.runs.Keys == s.runs.Keys && t.created == s.created + [7]
  {
    assert Next(s, CreateFromCheckout(r, true, Success(true))) == Create(s, r, OrderVoucher(s, r, true), true, false);
  }
}
