/** What every interleaving of checkout completions keeps about voucher counters. */
module CheckoutAccounting {
  import opened Wrappers
  import opened CheckoutProtocol

  // ----- Counting holders

  predicate HoldsSlot(run: Run, v: VoucherCode) {
    run.slot && run.voucher == Some(v)
  }

  predicate Carries(order: Order, v: VoucherCode) {
    order.status != Expired && order.voucher == Some(v)
  }

  function Holding(runs: map<RunId, Run>, v: VoucherCode): set<RunId> {
    set r | r in runs && HoldsSlot(runs[r], v)
  }

  function Live(orders: map<OrderId, Order>, v: VoucherCode): set<OrderId> {
    set o | o in orders && Carries(orders[o], v)
  }

  /** Slots held by requests: those under way, and those that ended without giving theirs back. */
  function RunSlots(runs: map<RunId, Run>, v: VoucherCode): nat {
    |Holding(runs, v)|
  }

  /** Slots held by live orders. */
  function LiveOrders(orders: map<OrderId, Order>, v: VoucherCode): nat {
    |Live(orders, v)|
  }

  function One(counts: bool, x: nat): (r: set<nat>)
    ensures |r| == if counts then 1 else 0
  {
    if counts then {x} else {}
  }

  lemma HoldingUpdate(runs: map<RunId, Run>, r: RunId, run: Run, v: VoucherCode)
    ensures Holding(runs[r := run], v) == (Holding(runs, v) - {r}) + One(HoldsSlot(run, v), r)
  {
    forall x ensures x in Holding(runs[r := run], v) <==> x in (Holding(runs, v) - {r}) + One(HoldsSlot(run, v), r) {
    }
  }

  lemma RunSlotsUpdate(runs: map<RunId, Run>, r: RunId, run: Run, v: VoucherCode)
    ensures RunSlots(runs[r := run], v)
            == RunSlots(runs, v) - (if r in runs && HoldsSlot(runs[r], v) then 1 else 0)
                + (if HoldsSlot(run, v) then 1 else 0)
  {
    HoldingUpdate(runs, r, run, v);
    assert r in Holding(runs, v) <==> r in runs && HoldsSlot(runs[r], v);
  }

  lemma LiveUpdate(orders: map<OrderId, Order>, o: OrderId, order: Order, v: VoucherCode)
    requires o !in orders
    ensures Live(orders[o := order], v) == Live(orders, v) + One(Carries(order, v), o)
  {
    forall x ensures x in Live(orders[o := order], v) <==> x in Live(orders, v) + One(Carries(order, v), o) {
    }
  }

  lemma LiveOrdersAdd(orders: map<OrderId, Order>, o: OrderId, order: Order, v: VoucherCode)
    requires o !in orders
    ensures LiveOrders(orders[o := order], v) == LiveOrders(orders, v) + (if Carries(order, v) then 1 else 0)
  {
    LiveUpdate(orders, o, order, v);
    assert o !in Live(orders, v);
  }

  lemma SetDifference(a: set<nat>, b: set<nat>)
    requires b <= a
    ensures |a - b| == |a| - |b|
  {
    assert a == (a - b) + b;
  }

  lemma LiveExpire(s: State, batch: set<OrderId>, v: VoucherCode)
    requires HasStatus(s, batch, Unconfirmed)
    ensures Carrying(s.orders, batch, v) <= Live(s.orders, v)
    ensures Live(MarkExpired(s.orders, batch), v) == Live(s.orders, v) - Carrying(s.orders, batch, v)
  {
    var marked := MarkExpired(s.orders, batch);
    forall o ensures o in Live(marked, v) <==> o in Live(s.orders, v) - Carrying(s.orders, batch, v) {
      assert o in batch && o in marked ==> marked[o].status == Expired;
    }
  }

  /** Expiring a batch takes exactly its carriers from the live orders. */
  lemma LiveOrdersExpire(s: State, batch: set<OrderId>, v: VoucherCode)
    requires HasStatus(s, batch, Unconfirmed)
    ensures LiveOrders(MarkExpired(s.orders, batch), v) == LiveOrders(s.orders, v) - |Carrying(s.orders, batch, v)|
  {
    LiveExpire(s, batch, v);
    SetDifference(Live(s.orders, v), Carrying(s.orders, batch, v));
  }

  lemma LiveOrdersDelete(s: State, batch: set<OrderId>, v: VoucherCode)
    requires HasStatus(s, batch, Expired)
    ensures LiveOrders(s.orders - batch, v) == LiveOrders(s.orders, v)
  {
    assert Live(s.orders - batch, v) == Live(s.orders, v);
  }

  // ----- The invariant

  /** A request that is between the two transactions of the payment flow holds a slot of its voucher. */
  predicate RunSane(s: State, run: Run) {
    && (run.slot ==> run.voucher.Some? && Limited(s, run.voucher.value))
    && (run.flow.WithPayment? && (run.pc.Paying? || run.pc.Paid?) ==>
          run.voucher.Some? && Counted(s, run.voucher.value) ==> run.slot)
    && (run.pc == Starting ==> !run.slot)
    && (run.pc == Starting && run.flow.WithPayment? ==> run.voucher.None?)
    && ((run.pc.Paying? || run.pc.Paid? || run.pc.ReleasingRecord?) ==> run.flow.WithPayment?)
    && (run.pc.ReleasingRecord? ==> !run.slot)
    && (run.pc.Creating? ==> run.flow.WithTransactions?)
  }

  ghost predicate Sane(s: State) {
    && s.used.Keys == s.vouchers.Keys
    && s.unslotted.Keys == s.vouchers.Keys
    && (forall o :: o in s.orders ==> o < s.nextOrder)
    && (forall r :: r in s.runs ==> RunSane(s, s.runs[r]))
  }

  /** The counter of a voucher with a usage limit: where it started, plus one for each slot held by a
      request and each live order with the voucher, less the orders that got it without a slot. */
  ghost predicate Balanced(s: State, start: map<VoucherCode, nat>, v: VoucherCode) {
    Counted(s, v) && v in s.used && v in s.unslotted && v in start ==>
      s.used[v] + s.unslotted[v] == start[v] + RunSlots(s.runs, v) + LiveOrders(s.orders, v)
  }

  predicate WithinLimit(s: State, v: VoucherCode) {
    Counted(s, v) && v in s.used ==> s.used[v] <= s.vouchers[v].limit.value
  }

  // ----- Steps of one request

  /** A step that changes one request and creates no order. */
  predicate OneRun(s: State, t: State, r: RunId) {
    && r in s.runs && r in t.runs
    && t.runs == s.runs[r := t.runs[r]]
    && t.vouchers == s.vouchers && t.orders == s.orders && t.nextOrder == s.nextOrder
    && t.unslotted == s.unslotted && t.created == s.created && t.checkouts.Keys <= s.checkouts.Keys
  }

  /** The counter goes up exactly when a slot is taken, below the limit, and down exactly when one is
      given back. */
  predicate SlotMoves(s: State, t: State, was: Run, now: Run) {
    if was.slot == now.slot then t.used == s.used && (now.slot ==> was.voucher == now.voucher)
    else if now.slot then
      now.voucher.Some? && now.voucher.value in s.used && Limited(s, now.voucher.value)
      && s.used[now.voucher.value] < s.vouchers[now.voucher.value].limit.value
      && t.used == s.used[now.voucher.value := s.used[now.voucher.value] + 1]
    else
      was.voucher.Some? && was.voucher.value in s.used && s.used[was.voucher.value] > 0
      && t.used == s.used[was.voucher.value := s.used[was.voucher.value] - 1]
  }

  /** Only the first transaction of the payment flow gives a request its voucher. */
  predicate SameRequest(was: Run, now: Run) {
    && was.flow == now.flow && was.token == now.token && was.email == now.email
    && (was.pc != Starting || was.flow.WithTransactions? ==> was.voucher == now.voucher)
  }

  predicate Moves(s: State, t: State, r: RunId) {
    OneRun(s, t, r) && SlotMoves(s, t, s.runs[r], t.runs[r]) && RunSane(s, t.runs[r])
        && SameRequest(s.runs[r], t.runs[r])
  }

  /** A step in which a request creates its order. */
  predicate OrderCreated(s: State, t: State, r: RunId, voucher: Option<VoucherCode>, confirmed: bool, deletes: bool) {
    && r in s.runs && !s.runs[r].pc.Ended? && s.runs[r].token in s.checkouts
    && t == Create(s, r, voucher, confirmed, deletes)
    && (s.runs[r].slot ==> voucher == s.runs[r].voucher)
    && match s.runs[r].flow
       case WithPayment => s.runs[r].pc == Paid(false) && voucher == s.runs[r].voucher && deletes
           && OrdersOf(s, s.runs[r].token) == {}
       case WithTransactions(d) => s.runs[r].pc == Creating && deletes == d
  }

  /** What a step of one request can be. */
  ghost predicate RunStep(s: State, t: State, r: RunId) {
    t == s || Moves(s, t, r) || exists voucher, confirmed, deletes :: OrderCreated(s, t, r, voucher, confirmed, deletes)
  }

  lemma AdvanceMoves(s: State, r: RunId, pc: Pc)
    requires r in s.runs && RunSane(s, s.runs[r].(pc := pc))
    ensures Moves(s, Advance(s, r, pc), r)
  {
  }

  lemma EndMoves(s: State, r: RunId, outcome: Outcome)
    requires r in s.runs && RunSane(s, s.runs[r])
    ensures Moves(s, EndRun(s, r, outcome), r)
  {
    AdvanceMoves(s, r, Ended(outcome));
  }

  lemma FirstTakesMoves(s: State, r: RunId, v: VoucherCode, pc: Pc)
    requires At(s, r, Starting) && RunSane(s, s.runs[r]) && Active(s, v, true)
    requires (pc == Paying && s.runs[r].flow.WithPayment?) || pc.Ended?
        || (pc == Creating && s.runs[r].flow.WithTransactions?)
    requires s.runs[r].flow.WithPayment? || s.runs[r].voucher == Some(v)
    ensures Moves(s, Take(s, r, v, pc), r)
  {
  }

  lemma TakeCounterMoves(s: State, r: RunId, v: VoucherCode)
    requires At(s, r, Starting) && s.runs[r].flow.WithPayment? && RunSane(s, s.runs[r]) && Active(s, v, true)
    ensures Moves(s, TakeCounter(s, r, v), r)
  {
  }

  lemma TaxErrorMoves(s: State, r: RunId, records: set<Record>)
    requires r in s.runs && RunSane(s, s.runs[r])
    ensures Moves(s, EndRun(s, r, TaxFailed).(records := records), r)
  {
    EndMoves(s, r, TaxFailed);
  }

  lemma FirstVoucherMoves(s: State, r: RunId, v: VoucherCode, inWindow: bool, fault: FirstFault)
    requires At(s, r, Starting) && s.runs[r].flow.WithPayment? && RunSane(s, s.runs[r])
    ensures Moves(s, FirstWithVoucher(s, r, v, inWindow, fault), r)
  {
    var k := (v, s.runs[r].email);
    if !Active(s, v, inWindow) {
      EndMoves(s, r, VoucherInactive);
    } else if Once(s, v) && k in s.records {
      TakeCounterMoves(s, r, v);
    } else if fault.TaxError? {
      TaxErrorMoves(s, r, s.records - {k});
    } else {
      FirstTakesMoves(s, r, v, if fault.FirstUnexpected? then Ended(UnexpectedError) else Paying);
    }
  }

  lemma {:induction false} FirstMoves(s: State, r: RunId, inWindow: bool, fault: FirstFault)
    requires At(s, r, Starting) && s.runs[r].flow.WithPayment? && RunSane(s, s.runs[r])
    ensures Moves(s, First(s, r, inWindow, fault), r)
  {
    var run, t := s.runs[r], First(s, r, inWindow, fault);
    if fault.FirstDatabaseError? || run.token !in s.checkouts || fault.RefusedEarly? || s.checkouts[run.token].None? {
      AdvanceMoves(s, r, t.runs[r].pc);
    } else {
      FirstVoucherMoves(s, r, s.checkouts[run.token].value, inWindow, fault);
    }
  }

  lemma PayMoves(s: State, r: RunId, payment: PaymentResult)
    requires At(s, r, Paying) && RunSane(s, s.runs[r])
    ensures Moves(s, Pay(s, r, payment), r)
  {
    if payment.Declined? && s.runs[r].voucher.Some? {
      CounterMoves(s, r);
    } else {
      AdvanceMoves(s, r, Pay(s, r, payment).runs[r].pc);
    }
  }

  lemma CounterMoves(s: State, r: RunId)
    requires At(s, r, Paying) && RunSane(s, s.runs[r]) && s.runs[r].voucher.Some?
    ensures Moves(s, ReleaseCounter(s, r), r)
  {
    var v := s.runs[r].voucher.value;
    if !Limited(s, v) {
      AdvanceMoves(s, r, ReleasingRecord);
    } else if v !in s.used || s.used[v] == 0 {
      EndMoves(s, r, DatabaseFailed);
    } else {
      assert s.runs[r].slot;
    }
  }

  lemma DropMoves(s: State, r: RunId)
    requires At(s, r, ReleasingRecord) && RunSane(s, s.runs[r])
    ensures Moves(s, DropRecord(s, r), r)
  {
  }

  lemma GiveBackMoves(s: State, r: RunId, v: VoucherCode, outcome: Outcome)
    requires r in s.runs && s.runs[r].pc.Paid? && RunSane(s, s.runs[r]) && s.runs[r].voucher == Some(v)
    requires !ReleaseFails(s, Some(v))
    ensures Moves(s, GiveBack(s, r, v, outcome), r)
  {
  }

  lemma {:induction false} ReleaseMoves(s: State, r: RunId, outcome: Outcome)
    requires r in s.runs && s.runs[r].pc.Paid? && RunSane(s, s.runs[r])
    ensures Moves(s, Release(s, r, outcome), r)
  {
    match s.runs[r].voucher
    case None => EndMoves(s, r, outcome);
    case Some(v) =>
      if ReleaseFails(s, Some(v)) {
        EndMoves(s, r, DatabaseFailed);
      } else {
        GiveBackMoves(s, r, v, outcome);
      }
  }

  lemma {:induction false} SecondMoves(s: State, r: RunId, result: CreateResult)
    requires r in s.runs && s.runs[r].pc.Paid? && RunSane(s, s.runs[r])
    ensures RunStep(s, Second(s, r, result), r)
  {
    var run, t := s.runs[r], Second(s, r, result);
    if result.CreateDatabaseError? || run.token !in s.checkouts {
      EndMoves(s, r, t.runs[r].pc.outcome);
    } else if run.pc.actionRequired {
      ReleaseMoves(s, r, ActionRequired);
    } else if result.RefundInProgress? || FindOrder(s, run.token).Some? {
      EndMoves(s, r, t.runs[r].pc.outcome);
    } else {
      match result
      case Success(confirmed) => assert OrderCreated(s, t, r, run.voucher, confirmed, true);
      case InsufficientStock => ReleaseMoves(s, r, OutOfStock);
      case GiftCardNotApplicable => ReleaseMoves(s, r, GiftCardRefused);
      case _ => EndMoves(s, r, UnexpectedError);
    }
  }

  lemma TakeMoves(s: State, r: RunId, inWindow: bool, refused: bool)
    requires At(s, r, Starting) && s.runs[r].flow.WithTransactions? && RunSane(s, s.runs[r])
    ensures Moves(s, TakeVoucher(s, r, inWindow, refused), r)
  {
    var run := s.runs[r];
    EndMoves(s, r, Rejected);
    EndMoves(s, r, AlreadyUsedByCustomer);
    if run.voucher.Some? && Active(s, run.voucher.value, inWindow) {
      FirstTakesMoves(s, r, run.voucher.value, Creating);
    }
  }

  lemma TransactionMoves(s: State, r: RunId, inWindow: bool, result: CreateResult)
    requires At(s, r, Creating) && RunSane(s, s.runs[r])
    ensures RunStep(s, CreateWithTransactions(s, r, inWindow, result), r)
  {
    var run, t := s.runs[r], CreateWithTransactions(s, r, inWindow, result);
    if result.CreateDatabaseError? {
      EndMoves(s, r, DatabaseFailed);
    } else if run.token !in s.checkouts {
      EndMoves(s, r, Returned(FindOrder(s, run.token)));
    } else if result.Success? {
      assert OrderCreated(s, t, r, OrderVoucher(s, r, inWindow), result.confirmed, run.flow.deletesCheckout);
    } else {
      EndMoves(s, r, t.runs[r].pc.outcome);
    }
  }

  lemma {:induction false} RunEventIsRunStep(s: State, e: Event)
    requires Sane(s) && IsRunEvent(e)
    ensures RunStep(s, Next(s, e), e.run)
  {
    if e.run in s.runs {
      assert RunSane(s, s.runs[e.run]);
      match e
      case FirstTransaction(r, inWindow, fault) =>
        if At(s, r, Starting) && s.runs[r].flow.WithPayment? { FirstMoves(s, r, inWindow, fault); }
      case ProcessPayment(r, payment) =>
        if At(s, r, Paying) { PayMoves(s, r, payment); }
      case ReleaseRecord(r) =>
        if At(s, r, ReleasingRecord) { DropMoves(s, r); }
      case SecondTransaction(r, result) =>
        if s.runs[r].pc.Paid? { SecondMoves(s, r, result); }
      case TakeUsage(r, inWindow, refused) =>
        if At(s, r, Starting) && s.runs[r].flow.WithTransactions? { TakeMoves(s, r, inWindow, refused); }
      case CreateFromCheckout(r, inWindow, result) =>
        if At(s, r, Creating) { TransactionMoves(s, r, inWindow, result); }
      case Crash(r) => EndMoves(s, r, Crashed);
    }
  }

  // ----- What such steps keep

  lemma MovesKeepSane(s: State, t: State, r: RunId)
    requires Sane(s) && Moves(s, t, r)
    ensures Sane(t)
  {
    forall x | x in t.runs ensures RunSane(t, t.runs[x]) {
      assert x != r ==> t.runs[x] == s.runs[x];
    }
  }

  lemma MovesBalance(s: State, t: State, r: RunId, start: map<VoucherCode, nat>, v: VoucherCode)
    requires Sane(s) && Moves(s, t, r) && Balanced(s, start, v)
    ensures Balanced(t, start, v)
  {
    assert RunSane(s, s.runs[r]);
    RunSlotsUpdate(s.runs, r, t.runs[r], v);
  }

  lemma MovesStayWithinLimit(s: State, t: State, r: RunId, v: VoucherCode)
    requires Sane(s) && Moves(s, t, r) && WithinLimit(s, v)
    ensures WithinLimit(t, v)
  {
  }

  lemma CreateKeeps(s: State, r: RunId, voucher: Option<VoucherCode>, confirmed: bool, deletes: bool,
                    start: map<VoucherCode, nat>, v: VoucherCode)
    requires Sane(s) && r in s.runs && (s.runs[r].slot ==> voucher == s.runs[r].voucher)
    ensures Sane(Create(s, r, voucher, confirmed, deletes))
    ensures Balanced(s, start, v) ==> Balanced(Create(s, r, voucher, confirmed, deletes), start, v)
    ensures WithinLimit(s, v) ==> WithinLimit(Create(s, r, voucher, confirmed, deletes), v)
  {
    var t := Create(s, r, voucher, confirmed, deletes);
    forall x | x in t.runs ensures RunSane(t, t.runs[x]) {
      assert x != r ==> t.runs[x] == s.runs[x];
      assert RunSane(s, s.runs[x]);
    }
    RunSlotsUpdate(s.runs, r, t.runs[r], v);
    LiveOrdersAdd(s.orders, s.nextOrder, t.orders[s.nextOrder], v);
  }

  lemma ExpireKeeps(s: State, batch: set<OrderId>, start: map<VoucherCode, nat>, v: VoucherCode)
    requires Sane(s) && HasStatus(s, batch, Unconfirmed)
    ensures Sane(Expire(s, batch))
    ensures Balanced(s, start, v) ==> Balanced(Expire(s, batch), start, v)
    ensures WithinLimit(s, v) ==> WithinLimit(Expire(s, batch), v)
  {
    LiveOrdersExpire(s, batch, v);
    var t := Expire(s, batch);
    forall r | r in t.runs ensures RunSane(t, t.runs[r]) {
      assert RunSane(s, s.runs[r]);
    }
  }

  lemma ArriveKeeps(s: State, e: Event, start: map<VoucherCode, nat>, v: VoucherCode)
    requires Sane(s) && e.Arrive?
    ensures Sane(Next(s, e))
    ensures Balanced(s, start, v) ==> Balanced(Next(s, e), start, v)
  {
    var t := Next(s, e);
    if e.run !in s.runs {
      RunSlotsUpdate(s.runs, e.run, t.runs[e.run], v);
    }
    forall r | r in t.runs ensures RunSane(t, t.runs[r]) {
      assert r in s.runs ==> RunSane(s, s.runs[r]);
    }
  }

  lemma OrdersGoneKeep(s: State, batch: set<OrderId>, start: map<VoucherCode, nat>, v: VoucherCode)
    requires Sane(s) && HasStatus(s, batch, Expired)
    ensures Sane(s.(orders := s.orders - batch))
    ensures Balanced(s, start, v) ==> Balanced(s.(orders := s.orders - batch), start, v)
  {
    LiveOrdersDelete(s, batch, v);
    var t := s.(orders := s.orders - batch);
    forall r | r in t.runs ensures RunSane(t, t.runs[r]) {
      assert RunSane(s, s.runs[r]);
    }
  }

  lemma CheckoutsDoNotMatter(s: State, t: State, start: map<VoucherCode, nat>, v: VoucherCode)
    requires Sane(s) && t == s.(checkouts := t.checkouts)
    ensures Sane(t)
    ensures Balanced(s, start, v) ==> Balanced(t, start, v)
  {
    forall r | r in t.runs ensures RunSane(t, t.runs[r]) {
      assert RunSane(s, s.runs[r]);
    }
  }

  lemma MovesKeep(s: State, t: State, r: RunId, start: map<VoucherCode, nat>, v: VoucherCode)
    requires Sane(s) && Moves(s, t, r)
    ensures Sane(t)
    ensures Balanced(s, start, v) ==> Balanced(t, start, v)
    ensures WithinLimit(s, v) ==> WithinLimit(t, v)
  {
    MovesKeepSane(s, t, r);
    if Balanced(s, start, v) {
      MovesBalance(s, t, r, start, v);
    }
    if WithinLimit(s, v) {
      MovesStayWithinLimit(s, t, r, v);
    }
  }

  lemma RunStepKeeps(s: State, t: State, r: RunId, start: map<VoucherCode, nat>, v: VoucherCode)
    requires Sane(s) && RunStep(s, t, r)
    ensures Sane(t) && t.vouchers == s.vouchers
    ensures Balanced(s, start, v) ==> Balanced(t, start, v)
    ensures WithinLimit(s, v) ==> WithinLimit(t, v)
  {
    if Moves(s, t, r) {
      MovesKeep(s, t, r, start, v);
    } else if t != s {
      var voucher, confirmed, deletes :| OrderCreated(s, t, r, voucher, confirmed, deletes);
      CreateKeeps(s, r, voucher, confirmed, deletes, start, v);
    }
  }

  /** What every event keeps that is not a step of a request. */
  predicate SharedChange(s: State, t: State) {
    && t.vouchers == s.vouchers && t.created == s.created && t.unslotted == s.unslotted && t.nextOrder == s.nextOrder
    && t.checkouts.Keys <= s.checkouts.Keys
    && (forall o :: o in t.orders ==>
          o in s.orders && t.orders[o].creator == s.orders[o].creator && t.orders[o].token == s.orders[o].token)
  }

  lemma ExpireChange(s: State, batch: set<OrderId>)
    ensures SharedChange(s, Expire(s, batch)) && Expire(s, batch).runs == s.runs
  {
  }

  lemma DeleteChange(s: State, batch: set<OrderId>)
    ensures SharedChange(s, s.(orders := s.orders - batch))
  {
  }

  lemma SmallChange(s: State, runs: map<RunId, Run>, checkouts: map<Token, Option<VoucherCode>>)
    requires checkouts.Keys <= s.checkouts.Keys
    ensures SharedChange(s, s.(runs := runs, checkouts := checkouts))
  {
  }

  lemma OthersChange(s: State, e: Event)
    requires !IsRunEvent(e)
    ensures SharedChange(s, Next(s, e))
    ensures e.Arrive? || Next(s, e).runs == s.runs
    ensures !e.ExpireOrders? ==> Next(s, e).used == s.used && Next(s, e).records == s.records
  {
    match e
    case ExpireOrders(batch) => ExpireChange(s, batch);
    case DeleteExpired(batch) => DeleteChange(s, batch);
    case Arrive(_, _, _, _, _) => SmallChange(s, Next(s, e).runs, s.checkouts);
    case SetVoucher(_, _) => SmallChange(s, s.runs, Next(s, e).checkouts);
    case RemoveCheckout(_) => SmallChange(s, s.runs, Next(s, e).checkouts);
  }

  lemma SameCountersStayWithinLimit(s: State, t: State, v: VoucherCode)
    requires WithinLimit(s, v) && t.used == s.used && t.vouchers == s.vouchers
    ensures WithinLimit(t, v)
  {
  }

  lemma OthersKeep(s: State, e: Event, start: map<VoucherCode, nat>, v: VoucherCode)
    requires Sane(s) && !IsRunEvent(e)
    ensures Sane(Next(s, e))
    ensures Balanced(s, start, v) ==> Balanced(Next(s, e), start, v)
    ensures WithinLimit(s, v) ==> WithinLimit(Next(s, e), v)
  {
    OthersChange(s, e);
    if WithinLimit(s, v) && !e.ExpireOrders? {
      SameCountersStayWithinLimit(s, Next(s, e), v);
    }
    match e
    case Arrive(_, _, _, _, _) => ArriveKeeps(s, e, start, v);
    case ExpireOrders(batch) =>
      if HasStatus(s, batch, Unconfirmed) {
        ExpireKeeps(s, batch, start, v);
      }
    case DeleteExpired(batch) =>
      if HasStatus(s, batch, Expired) {
        OrdersGoneKeep(s, batch, start, v);
      }
    case _ => CheckoutsDoNotMatter(s, Next(s, e), start, v);
  }

  /** Every step keeps the store sane and every counter in balance, and lets no counter pass its limit. */
  lemma StepKeeps(s: State, e: Event, start: map<VoucherCode, nat>, v: VoucherCode)
    requires Sane(s)
    ensures Sane(Next(s, e)) && Next(s, e).vouchers == s.vouchers
    ensures Balanced(s, start, v) ==> Balanced(Next(s, e), start, v)
    ensures WithinLimit(s, v) ==> WithinLimit(Next(s, e), v)
  {
    if IsRunEvent(e) {
      RunEventIsRunStep(s, e);
      RunStepKeeps(s, Next(s, e), e.run, start, v);
    } else {
      OthersChange(s, e);
      OthersKeep(s, e, start, v);
    }
  }

  // ----- Main results

  /** A store before any request of this run: its orders may have any past. */
  ghost predicate Initial(s: State) {
    && Sane(s)
    && s.runs == map[] && s.created == []
    && (forall o :: o in s.orders ==> s.orders[o].creator.None?)
    && (forall v :: v in s.unslotted ==> s.unslotted[v] == 0)
    && (forall v :: v in s.used && Counted(s, v) ==> LiveOrders(s.orders, v) <= s.used[v])
  }

  /** The part of each counter at the start that no order accounts for. */
  function StartOf(s: State): (start: map<VoucherCode, nat>)
    requires forall v :: v in s.used && Counted(s, v) ==> LiveOrders(s.orders, v) <= s.used[v]
  {
    map v | v in s.used :: if Counted(s, v) then s.used[v] - LiveOrders(s.orders, v) else 0
  }

  lemma {:induction false} BehaviourKeeps(s: State, events: seq<Event>, start: map<VoucherCode, nat>, v: VoucherCode)
    requires Sane(s)
    ensures Sane(Behave(s, events)) && Behave(s, events).vouchers == s.vouchers
    ensures Balanced(s, start, v) ==> Balanced(Behave(s, events), start, v)
    ensures WithinLimit(s, v) ==> WithinLimit(Behave(s, events), v)
  {
    if events != [] {
      BehaviourKeeps(s, events[..|events| - 1], start, v);
      StepKeeps(Behave(s, events[..|events| - 1]), events[|events| - 1], start, v);
    }
  }

  /** In every interleaving of both flows with each other and with expiry, a counter equals its start plus
      the slots held by requests and by live orders, less the orders that got the voucher without a slot. */
  lemma {:induction false} CountersBalance(s: State, events: seq<Event>, v: VoucherCode)
    requires Initial(s) && Counted(s, v)
    ensures var t := Behave(s, events);
            v in t.used && v in t.unslotted
            && t.used[v] + t.unslotted[v] == StartOf(s)[v] + RunSlots(t.runs, v) + LiveOrders(t.orders, v)
  {
    assert Holding(s.runs, v) == {};
    BehaviourKeeps(s, events, StartOf(s), v);
  }

  /** Under any interleaving of both flows, no counter ever passes its usage limit. */
  lemma {:induction false} LimitIsNeverPassed(s: State, events: seq<Event>, v: VoucherCode)
    requires Sane(s) && WithinLimit(s, v)
    ensures WithinLimit(Behave(s, events), v)
  {
    BehaviourKeeps(s, events, map[], v);
  }

  // ----- Only the payment flow

  predicate PaymentArrivals(events: seq<Event>) {
    forall i :: 0 <= i < |events| && events[i].Arrive? ==> events[i].flow.WithPayment?
  }

  ghost predicate PaymentOnly(s: State) {
    && (forall r :: r in s.runs ==> s.runs[r].flow.WithPayment?)
    && (forall v :: v in s.unslotted && Counted(s, v) ==> s.unslotted[v] == 0)
  }

  lemma {:induction false} StepStaysPaymentOnly(s: State, e: Event)
    requires Sane(s) && PaymentOnly(s) && (e.Arrive? ==> e.flow.WithPayment?)
    ensures PaymentOnly(Next(s, e))
  {
    var t := Next(s, e);
    if IsRunEvent(e) {
      RunEventIsRunStep(s, e);
      RunStepStaysPaymentOnly(s, t, e.run);
    }
  }

  lemma RunStepStaysPaymentOnly(s: State, t: State, r: RunId)
    requires Sane(s) && PaymentOnly(s) && RunStep(s, t, r)
    ensures PaymentOnly(t)
  {
    if t != s && !Moves(s, t, r) {
      var voucher, confirmed, deletes :| OrderCreated(s, t, r, voucher, confirmed, deletes);
      assert RunSane(s, s.runs[r]);
    }
  }

  lemma {:induction false} BehaviourStaysPaymentOnly(s: State, events: seq<Event>)
    requires Sane(s) && PaymentOnly(s) && PaymentArrivals(events)
    ensures PaymentOnly(Behave(s, events))
  {
    if events != [] {
      BehaviourStaysPaymentOnly(s, events[..|events| - 1]);
      BehaviourKeeps(s, events[..|events| - 1], map[], 0);
      StepStaysPaymentOnly(Behave(s, events[..|events| - 1]), events[|events| - 1]);
    }
  }

  /** In every interleaving of payment-flow requests the counter is exactly its start plus the slots held by
      requests and live orders, so that it never falls below its start. */
  lemma {:induction false} PaymentFlowAccounts(s: State, events: seq<Event>, v: VoucherCode)
    requires Initial(s) && Counted(s, v) && PaymentArrivals(events)
    ensures var t, start := Behave(s, events), StartOf(s)[v];
            v in t.used && t.used[v] == start + RunSlots(t.runs, v) + LiveOrders(t.orders, v) >= start
  {
    CountersBalance(s, events, v);
    BehaviourStaysPaymentOnly(s, events);
    BehaviourKeeps(s, events, map[], v);
  }

  /** So live orders with a limited voucher never number more than the limit leaves above the start. */
  lemma {:induction false} LiveOrdersStayWithinLimit(s: State, events: seq<Event>, v: VoucherCode)
    requires Initial(s) && Counted(s, v) && PaymentArrivals(events) && s.used[v] <= s.vouchers[v].limit.value
    ensures StartOf(s)[v] + LiveOrders(Behave(s, events).orders, v) <= s.vouchers[v].limit.value
  {
    PaymentFlowAccounts(s, events, v);
    BehaviourKeeps(s, events, map[], v);
  }
}
