/** What the events of a request lead to, whatever other requests do in between. */
module CheckoutHistory {
  import opened Wrappers
  import opened CheckoutProtocol
  import opened CheckoutAccounting

  // ----- The steps of a request

  /** The request of this event stands before it. */
  predicate Steps(s: State, e: Event) {
    IsRunEvent(e) && e.run in s.runs
    && var run := s.runs[e.run];
       match e
       case FirstTransaction(_, _, _) => run.pc.Starting? && run.flow.WithPayment?
       case ProcessPayment(_, _) => run.pc.Paying?
       case ReleaseRecord(_) => run.pc.ReleasingRecord?
       case SecondTransaction(_, _) => run.pc.Paid?
       case TakeUsage(_, _, _) => run.pc.Starting? && run.flow.WithTransactions?
       case CreateFromCheckout(_, _, _) => run.pc.Creating?
       case Crash(_) => !run.pc.Ended?
  }

  /** The steps that a request took in a run of the system. */
  function StepsOf(s: State, events: seq<Event>, r: RunId): seq<Event> {
    if events == [] then []
    else
      var before, e := events[..|events| - 1], events[|events| - 1];
      StepsOf(s, before, r) + if Steps(Behave(s, before), e) && e.run == r then [e] else []
  }

  /** A first transaction in which nothing failed. */
  predicate Prepaid(steps: seq<Event>) {
    |steps| == 1 && steps[0].FirstTransaction? && steps[0].fault.NoFault?
  }

  /** And a payment with this result after it. */
  predicate PaidWith(steps: seq<Event>, payment: PaymentResult) {
    |steps| == 2 && Prepaid(steps[..1]) && steps[1].ProcessPayment? && steps[1].payment == payment
  }

  /** A payment after which there is nothing to wait for. */
  predicate Cleared(steps: seq<Event>) {
    PaidWith(steps, NoPayment) || PaidWith(steps, Charged(false))
  }

  predicate UsageTaken(steps: seq<Event>) {
    |steps| == 1 && steps[0].TakeUsage? && !steps[0].refused
  }

  /** Steps that an order can be made in. */
  predicate MakesOrder(before: seq<Event>, last: Event) {
    || (last.SecondTransaction? && last.result.Success? && Cleared(before))
    || (last.CreateFromCheckout? && last.result.Success? && UsageTaken(before))
  }

  /** The steps before an ending, and the one that led to it. */
  predicate EndedBy(outcome: Outcome, before: seq<Event>, last: Event) {
    match last
    case FirstTransaction(_, _, fault) => before == [] && EndedByFirst(outcome, fault)
    case ProcessPayment(_, payment) => Prepaid(before) && EndedByPayment(outcome, payment)
    case ReleaseRecord(_) => PaidWith(before, Declined) && outcome.PaymentFailed?
    case SecondTransaction(_, result) =>
      if PaidWith(before, Charged(true)) then EndedByAction(outcome, result)
      else Cleared(before) && EndedBySecond(outcome, result)
    case TakeUsage(_, _, refused) =>
      before == [] && if refused then outcome.Rejected? else outcome.AlreadyUsedByCustomer?
    case CreateFromCheckout(_, _, result) => UsageTaken(before) && EndedByCreation(outcome, result)
    case Crash(_) => outcome.Crashed?
    case _ => false
  }

  predicate EndedByFirst(outcome: Outcome, fault: FirstFault) {
    match outcome
    case Returned(_) => !fault.FirstDatabaseError?
    case VoucherInactive => !fault.FirstDatabaseError? && !fault.RefusedEarly?
    case AlreadyUsedByCustomer => !fault.FirstDatabaseError? && !fault.RefusedEarly?
    case Rejected => fault.RefusedEarly?
    case TaxFailed => fault.TaxError?
    case UnexpectedError => fault.FirstUnexpected?
    case DatabaseFailed => fault.FirstDatabaseError?
    case _ => false
  }

  predicate EndedByPayment(outcome: Outcome, payment: PaymentResult) {
    match outcome
    case PaymentInactive => payment.BecameInactive?
    case PaymentFailed => payment.Declined?
    case DatabaseFailed => payment.Declined?
    case _ => false
  }

  predicate EndedByAction(outcome: Outcome, result: CreateResult) {
    match outcome
    case Returned(_) => !result.CreateDatabaseError?
    case ActionRequired => !result.CreateDatabaseError?
    case DatabaseFailed => true
    case _ => false
  }

  predicate EndedBySecond(outcome: Outcome, result: CreateResult) {
    match outcome
    case Returned(_) => !result.CreateDatabaseError?
    case FoundExisting(_) => !result.CreateDatabaseError? && !result.RefundInProgress?
    case Completed(_) => result.Success?
    case RefundOngoing => result.RefundInProgress?
    case OutOfStock => result.InsufficientStock?
    case GiftCardRefused => result.GiftCardNotApplicable?
    case UnexpectedError => result.CreateUnexpected?
    case DatabaseFailed =>
      result.CreateDatabaseError? || result.InsufficientStock? || result.GiftCardNotApplicable?
    case _ => false
  }

  predicate EndedByCreation(outcome: Outcome, result: CreateResult) {
    match outcome
    case Returned(_) => !result.CreateDatabaseError?
    case Completed(_) => result.Success?
    case OutOfStock => result.InsufficientStock?
    case GiftCardRefused => result.GiftCardNotApplicable?
    case UnexpectedError => result.RefundInProgress? || result.CreateUnexpected?
    case DatabaseFailed =>
      result.CreateDatabaseError? || result.InsufficientStock? || result.GiftCardNotApplicable?
    case _ => false
  }

  /** Where a request stands tells the steps it took, and these tell where it stands. */
  predicate Told(pc: Pc, steps: seq<Event>) {
    match pc
    case Starting => steps == []
    case Paying => Prepaid(steps)
    case ReleasingRecord => PaidWith(steps, Declined)
    case Paid(actionRequired) => if actionRequired then PaidWith(steps, Charged(true)) else Cleared(steps)
    case Creating => UsageTaken(steps)
    case Ended(outcome) => steps != [] && EndedBy(outcome, steps[..|steps| - 1], steps[|steps| - 1])
  }

  predicate Tells(s: State, r: RunId, steps: seq<Event>) {
    r in s.runs && Told(s.runs[r].pc, steps)
  }

  lemma AdvanceTells(s: State, r: RunId, pc: Pc, steps: seq<Event>)
    requires r in s.runs && Told(pc, steps)
    ensures Tells(Advance(s, r, pc), r, steps)
  {
  }

  lemma EndingTold(outcome: Outcome, before: seq<Event>, last: Event)
    requires EndedBy(outcome, before, last)
    ensures Told(Ended(outcome), before + [last])
  {
    assert (before + [last])[..|before|] == before;
  }

  lemma EndTells(s: State, r: RunId, outcome: Outcome, before: seq<Event>, last: Event)
    requires r in s.runs && EndedBy(outcome, before, last)
    ensures Tells(EndRun(s, r, outcome), r, before + [last])
  {
    EndingTold(outcome, before, last);
    AdvanceTells(s, r, Ended(outcome), before + [last]);
  }

  lemma OnlyRunsTell(s: State, t: State, r: RunId, steps: seq<Event>)
    requires Tells(s, r, steps) && t.runs == s.runs
    ensures Tells(t, r, steps)
  {
  }

  lemma EndsFirst(s: State, r: RunId, outcome: Outcome, inWindow: bool, fault: FirstFault)
    requires r in s.runs && EndedByFirst(outcome, fault)
    ensures Tells(EndRun(s, r, outcome), r, [FirstTransaction(r, inWindow, fault)])
  {
    EndTells(s, r, outcome, [], FirstTransaction(r, inWindow, fault));
    assert [] + [FirstTransaction(r, inWindow, fault)] == [FirstTransaction(r, inWindow, fault)];
  }

  lemma FirstTold(s: State, r: RunId, inWindow: bool, fault: FirstFault)
    requires At(s, r, Starting)
    ensures Tells(First(s, r, inWindow, fault), r, [FirstTransaction(r, inWindow, fault)])
  {
    var token := s.runs[r].token;
    if fault.FirstDatabaseError? {
      EndsFirst(s, r, DatabaseFailed, inWindow, fault);
    } else if token !in s.checkouts {
      EndsFirst(s, r, Returned(FindOrder(s, token)), inWindow, fault);
    } else if fault.RefusedEarly? {
      EndsFirst(s, r, Rejected, inWindow, fault);
    } else if s.checkouts[token].Some? {
      FirstVoucherTold(s, r, s.checkouts[token].value, inWindow, fault);
    } else if fault.TaxError? {
      EndsFirst(s, r, TaxFailed, inWindow, fault);
    } else if fault.FirstUnexpected? {
      EndsFirst(s, r, UnexpectedError, inWindow, fault);
    } else {
      AdvanceTells(s, r, Paying, [FirstTransaction(r, inWindow, fault)]);
    }
  }

  lemma TakeTells(s: State, r: RunId, v: VoucherCode, pc: Pc, steps: seq<Event>)
    requires r in s.runs && v in s.used && Told(pc, steps)
    ensures Tells(Take(s, r, v, pc), r, steps)
  {
  }

  lemma CounterTells(s: State, r: RunId, v: VoucherCode, inWindow: bool, fault: FirstFault)
    requires r in s.runs && v in s.used && EndedByFirst(AlreadyUsedByCustomer, fault)
    ensures Tells(TakeCounter(s, r, v), r, [FirstTransaction(r, inWindow, fault)])
  {
    EndingTold(AlreadyUsedByCustomer, [], FirstTransaction(r, inWindow, fault));
    assert [] + [FirstTransaction(r, inWindow, fault)] == [FirstTransaction(r, inWindow, fault)];
  }

  lemma FirstVoucherTold(s: State, r: RunId, v: VoucherCode, inWindow: bool, fault: FirstFault)
    requires At(s, r, Starting) && !fault.FirstDatabaseError? && !fault.RefusedEarly?
    ensures Tells(FirstWithVoucher(s, r, v, inWindow, fault), r, [FirstTransaction(r, inWindow, fault)])
  {
    var steps := [FirstTransaction(r, inWindow, fault)];
    if !Active(s, v, inWindow) {
      EndsFirst(s, r, VoucherInactive, inWindow, fault);
    } else if Once(s, v) && (v, s.runs[r].email) in s.records {
      CounterTells(s, r, v, inWindow, fault);
    } else if fault.TaxError? {
      EndsFirst(s, r, TaxFailed, inWindow, fault);
      OnlyRunsTell(EndRun(s, r, TaxFailed), FirstWithVoucher(s, r, v, inWindow, fault), r, steps);
    } else if fault.FirstUnexpected? {
      EndingTold(UnexpectedError, [], steps[0]);
      assert [] + [steps[0]] == steps;
      TakeTells(s, r, v, Ended(UnexpectedError), steps);
    } else {
      TakeTells(s, r, v, Paying, steps);
    }
  }

  lemma PaidTold(steps: seq<Event>, r: RunId, payment: PaymentResult)
    requires Prepaid(steps)
    ensures PaidWith(steps + [ProcessPayment(r, payment)], payment)
  {
    assert (steps + [ProcessPayment(r, payment)])[..1] == steps;
  }

  lemma CounterTold(s: State, r: RunId, steps: seq<Event>)
    requires r in s.runs && s.runs[r].voucher.Some? && Prepaid(steps)
    ensures Tells(ReleaseCounter(s, r), r, steps + [ProcessPayment(r, Declined)])
  {
    var last := ProcessPayment(r, Declined);
    PaidTold(steps, r, Declined);
    AdvanceTells(s, r, ReleasingRecord, steps + [last]);
    EndTells(s, r, DatabaseFailed, steps, last);
  }

  lemma PayTold(s: State, r: RunId, payment: PaymentResult, steps: seq<Event>)
    requires At(s, r, Paying) && Prepaid(steps)
    ensures Tells(Pay(s, r, payment), r, steps + [ProcessPayment(r, payment)])
  {
    var last := ProcessPayment(r, payment);
    PaidTold(steps, r, payment);
    match payment
    case NoPayment => AdvanceTells(s, r, Paid(false), steps + [last]);
    case Charged(actionRequired) => AdvanceTells(s, r, Paid(actionRequired), steps + [last]);
    case BecameInactive => EndTells(s, r, PaymentInactive, steps, last);
    case Declined =>
      if s.runs[r].voucher.None? {
        EndTells(s, r, PaymentFailed, steps, last);
      } else {
        CounterTold(s, r, steps);
      }
  }

  lemma DropTold(s: State, r: RunId, steps: seq<Event>)
    requires r in s.runs && PaidWith(steps, Declined)
    ensures Tells(DropRecord(s, r), r, steps + [ReleaseRecord(r)])
  {
    EndTells(s, r, PaymentFailed, steps, ReleaseRecord(r));
    EndingTold(PaymentFailed, steps, ReleaseRecord(r));
  }

  lemma GiveBackTells(s: State, r: RunId, v: VoucherCode, outcome: Outcome, steps: seq<Event>)
    requires r in s.runs && !ReleaseFails(s, Some(v)) && Told(Ended(outcome), steps)
    ensures Tells(GiveBack(s, r, v, outcome), r, steps)
  {
  }

  lemma ReleaseTold(s: State, r: RunId, outcome: Outcome, before: seq<Event>, last: Event)
    requires r in s.runs && EndedBy(outcome, before, last) && EndedBy(DatabaseFailed, before, last)
    ensures Tells(Release(s, r, outcome), r, before + [last])
  {
    EndTells(s, r, outcome, before, last);
    EndTells(s, r, DatabaseFailed, before, last);
    EndingTold(outcome, before, last);
    var voucher := s.runs[r].voucher;
    if voucher.Some? && !ReleaseFails(s, voucher) {
      GiveBackTells(s, r, voucher.value, outcome, before + [last]);
    }
  }

  lemma CreatedTells(s: State, r: RunId, voucher: Option<VoucherCode>, confirmed: bool, deletes: bool,
                     steps: seq<Event>)
    requires r in s.runs && Told(Ended(Completed(s.nextOrder)), steps)
    ensures Tells(Create(s, r, voucher, confirmed, deletes), r, steps)
  {
  }

  lemma SecondTold(s: State, r: RunId, result: CreateResult, steps: seq<Event>)
    requires r in s.runs && s.runs[r].pc.Paid? && Told(s.runs[r].pc, steps)
    ensures Tells(Second(s, r, result), r, steps + [SecondTransaction(r, result)])
  {
    var run, last := s.runs[r], SecondTransaction(r, result);
    if result.CreateDatabaseError? {
      EndTells(s, r, DatabaseFailed, steps, last);
    } else if run.token !in s.checkouts {
      EndTells(s, r, Returned(FindOrder(s, run.token)), steps, last);
    } else if run.pc.actionRequired {
      ReleaseTold(s, r, ActionRequired, steps, last);
    } else {
      ClearedSecondTold(s, r, result, steps);
    }
  }

  lemma FoundTold(s: State, r: RunId, o: OrderId, checkouts: map<Token, Option<VoucherCode>>, result: CreateResult,
                  steps: seq<Event>)
    requires r in s.runs && Cleared(steps) && !result.CreateDatabaseError? && !result.RefundInProgress?
    ensures Tells(EndRun(s, r, FoundExisting(o)).(checkouts := checkouts), r, steps + [SecondTransaction(r, result)])
  {
    var last, ended := SecondTransaction(r, result), EndRun(s, r, FoundExisting(o));
    EndTells(s, r, FoundExisting(o), steps, last);
    OnlyRunsTell(ended, ended.(checkouts := checkouts), r, steps + [last]);
  }

  lemma ClearedSecondTold(s: State, r: RunId, result: CreateResult, steps: seq<Event>)
    requires r in s.runs && s.runs[r].pc == Paid(false) && Cleared(steps)
    requires !result.CreateDatabaseError? && s.runs[r].token in s.checkouts
    ensures Tells(Second(s, r, result), r, steps + [SecondTransaction(r, result)])
  {
    var run, last := s.runs[r], SecondTransaction(r, result);
    var found := FindOrder(s, run.token);
    if result.RefundInProgress? {
      EndTells(s, r, RefundOngoing, steps, last);
    } else if found.Some? {
      FoundTold(s, r, found.value, s.checkouts - {run.token}, result, steps);
    } else {
      match result
      case Success(confirmed) =>
        EndingTold(Completed(s.nextOrder), steps, last);
        CreatedTells(s, r, run.voucher, confirmed, true, steps + [last]);
      case InsufficientStock => ReleaseTold(s, r, OutOfStock, steps, last);
      case GiftCardNotApplicable => ReleaseTold(s, r, GiftCardRefused, steps, last);
      case _ => EndTells(s, r, UnexpectedError, steps, last);
    }
  }

  lemma TakeTold(s: State, r: RunId, inWindow: bool, refused: bool)
    requires At(s, r, Starting)
    ensures Tells(TakeVoucher(s, r, inWindow, refused), r, [TakeUsage(r, inWindow, refused)])
  {
    var run, last := s.runs[r], TakeUsage(r, inWindow, refused);
    assert [] + [last] == [last];
    if refused {
      EndTells(s, r, Rejected, [], last);
    } else if run.voucher.None? || !Active(s, run.voucher.value, inWindow) {
      AdvanceTells(s, r, Creating, [last]);
    } else if Once(s, run.voucher.value) && (run.voucher.value, run.email) in s.records {
      EndTells(s, r, AlreadyUsedByCustomer, [], last);
    } else {
      TakeTells(s, r, run.voucher.value, Creating, [last]);
    }
  }

  lemma CreateTold(s: State, r: RunId, inWindow: bool, result: CreateResult, steps: seq<Event>)
    requires At(s, r, Creating) && UsageTaken(steps)
    ensures Tells(CreateWithTransactions(s, r, inWindow, result), r, steps + [CreateFromCheckout(r, inWindow, result)])
  {
    var run, last := s.runs[r], CreateFromCheckout(r, inWindow, result);
    if result.CreateDatabaseError? {
      EndTells(s, r, DatabaseFailed, steps, last);
    } else if run.token !in s.checkouts {
      EndTells(s, r, Returned(FindOrder(s, run.token)), steps, last);
    } else if result.Success? {
      EndingTold(Completed(s.nextOrder), steps, last);
      CreatedTells(s, r, OrderVoucher(s, r, inWindow), result.confirmed,
                   run.flow.WithTransactions? && run.flow.deletesCheckout, steps + [last]);
    } else {
      FailedTold(s, r, inWindow, result, steps);
    }
  }

  lemma FailedTold(s: State, r: RunId, inWindow: bool, result: CreateResult, steps: seq<Event>)
    requires At(s, r, Creating) && UsageTaken(steps) && s.runs[r].token in s.checkouts
    requires !result.CreateDatabaseError? && !result.Success?
    ensures Tells(CreateWithTransactions(s, r, inWindow, result), r, steps + [CreateFromCheckout(r, inWindow, result)])
  {
    var last := CreateFromCheckout(r, inWindow, result);
    var fails := ReleaseFails(s, OrderVoucher(s, r, inWindow));
    match result
    case InsufficientStock => EndTells(s, r, if fails then DatabaseFailed else OutOfStock, steps, last);
    case GiftCardNotApplicable => EndTells(s, r, if fails then DatabaseFailed else GiftCardRefused, steps, last);
    case _ => EndTells(s, r, UnexpectedError, steps, last);
  }

  /** A step of a request goes on telling its steps. */
  lemma StepTold(s: State, e: Event, steps: seq<Event>)
    requires Steps(s, e) && Told(s.runs[e.run].pc, steps)
    ensures Tells(Next(s, e), e.run, steps + [e])
  {
    match e
    case FirstTransaction(r, inWindow, fault) =>
      assert steps + [e] == [e];
      FirstTold(s, r, inWindow, fault);
    case ProcessPayment(r, payment) => PayTold(s, r, payment, steps);
    case ReleaseRecord(r) => DropTold(s, r, steps);
    case SecondTransaction(r, result) => SecondTold(s, r, result, steps);
    case TakeUsage(r, inWindow, refused) =>
      assert steps + [e] == [e];
      TakeTold(s, r, inWindow, refused);
    case CreateFromCheckout(r, inWindow, result) => CreateTold(s, r, inWindow, result, steps);
    case Crash(r) => EndTells(s, r, Crashed, steps, e);
  }

  // ----- Steps of others

  /** Where requests stand is where they stood, but for one of them; new ones are starting. */
  predicate OthersStand(s: State, t: State, but: Option<RunId>) {
    && (forall r :: r in s.runs && but != Some(r) ==> r in t.runs && t.runs[r] == s.runs[r])
    && (forall r :: r in t.runs && r !in s.runs ==> t.runs[r].pc == Starting)
  }

  lemma RunStepStands(s: State, t: State, r: RunId)
    requires RunStep(s, t, r)
    ensures OthersStand(s, t, Some(r))
  {
    if t != s && !Moves(s, t, r) {
      var voucher, confirmed, deletes :| OrderCreated(s, t, r, voucher, confirmed, deletes);
    }
  }

  lemma EventStands(s: State, e: Event)
    requires Sane(s)
    ensures OthersStand(s, Next(s, e), if Steps(s, e) then Some(e.run) else None)
  {
    if !IsRunEvent(e) {
      OthersChange(s, e);
    } else if Steps(s, e) {
      RunEventIsRunStep(s, e);
      RunStepStands(s, Next(s, e), e.run);
    } else {
      NoStepNoChange(s, e);
    }
  }

  lemma NoStepNoChange(s: State, e: Event)
    requires IsRunEvent(e) && !Steps(s, e)
    ensures Next(s, e) == s
  {
  }

  /** Every request tells its steps; one that has not arrived took none. */
  ghost predicate TellsSteps(s: State, r: RunId, steps: seq<Event>) {
    if r in s.runs then Told(s.runs[r].pc, steps) else steps == []
  }

  lemma EventTellsSteps(s: State, e: Event, r: RunId, steps: seq<Event>)
    requires Sane(s) && TellsSteps(s, r, steps)
    ensures TellsSteps(Next(s, e), r, steps + if Steps(s, e) && e.run == r then [e] else [])
  {
    if Steps(s, e) && e.run == r {
      StepTold(s, e, steps);
    } else {
      EventStands(s, e);
      assert steps + [] == steps;
    }
  }

  /** In every interleaving of both flows, where a request stands tells exactly the steps that led there. */
  lemma {:induction false} RequestsTellTheirSteps(s: State, events: seq<Event>, r: RunId)
    requires Initial(s)
    ensures TellsSteps(Behave(s, events), r, StepsOf(s, events, r))
  {
    if events != [] {
      var before := events[..|events| - 1];
      RequestsTellTheirSteps(s, before, r);
      BehaviourKeeps(s, before, map[], 0);
      EventTellsSteps(Behave(s, before), events[|events| - 1], r, StepsOf(s, before, r));
    }
  }

  // ----- Orders and the steps that made them

  /** A confirmed order never expires. */
  predicate StatusFits(status: Status, confirmed: bool) {
    if confirmed then status.Unfulfilled? else status.Unconfirmed? || status.Expired?
  }

  /** An order that was made in these steps. */
  predicate OrderFits(order: Order, run: Run, o: OrderId, steps: seq<Event>) {
    && run.pc == Ended(Completed(o)) && order.token == run.token && order.email == run.email
    && steps != []
    && var last := steps[|steps| - 1];
       MakesOrder(steps[..|steps| - 1], last) && StatusFits(order.status, last.result.confirmed)
  }

  predicate MadeBy(s: State, o: OrderId, r: RunId) {
    o in s.orders && s.orders[o].creator == Some(r)
  }

  /** A request makes its order in its last step. */
  predicate MakesNow(s: State, e: Event, o: OrderId) {
    && Steps(s, e) && o == s.nextOrder
    && (e.SecondTransaction? || e.CreateFromCheckout?) && e.result.Success?
    && IsMade(s, Next(s, e), e.run, o, e.result.confirmed)
  }

  /** The new order of a request is the only one; it has the customer and the checkout of the request. */
  predicate IsMade(s: State, t: State, r: RunId, o: OrderId, confirmed: bool)
    requires r in s.runs
  {
    && o in t.orders && t.orders == s.orders[o := t.orders[o]]
    && t.orders[o].token == s.runs[r].token && t.orders[o].email == s.runs[r].email && t.orders[o].creator == Some(r)
    && t.orders[o].status == (if confirmed then Unfulfilled else Unconfirmed)
    && r in t.runs
    && t.runs[r].pc == Ended(Completed(o)) && t.runs[r].token == s.runs[r].token && t.runs[r].email == s.runs[r].email
  }

  lemma CreateIsMade(s: State, r: RunId, voucher: Option<VoucherCode>, confirmed: bool, deletes: bool)
    requires r in s.runs
    ensures IsMade(s, Create(s, r, voucher, confirmed, deletes), r, s.nextOrder, confirmed)
  {
  }

  /** Orders go, and pass from unconfirmed to expired. */
  predicate OrdersGoOn(s: State, t: State) {
    forall o :: o in t.orders ==>
      && o in s.orders
      && (t.orders[o] == s.orders[o]
          || (s.orders[o].status.Unconfirmed? && t.orders[o] == s.orders[o].(status := Expired)))
  }

  lemma AdvanceGoesOn(s: State, r: RunId, pc: Pc)
    requires r in s.runs
    ensures OrdersGoOn(s, Advance(s, r, pc))
  {
  }

  lemma ReleaseGoesOn(s: State, r: RunId, outcome: Outcome)
    requires r in s.runs
    ensures OrdersGoOn(s, Release(s, r, outcome))
  {
    AdvanceGoesOn(s, r, Ended(outcome));
    AdvanceGoesOn(s, r, Ended(DatabaseFailed));
    var voucher := s.runs[r].voucher;
    if voucher.Some? && !ReleaseFails(s, voucher) {
      assert GiveBack(s, r, voucher.value, outcome).orders == s.orders;
    }
  }

  lemma SecondMakes(s: State, e: Event)
    requires Steps(s, e) && e.SecondTransaction?
    ensures OrdersGoOn(s, Next(s, e)) || MakesNow(s, e, s.nextOrder)
  {
    var r, result := e.run, e.result;
    var run := s.runs[r];
    if result.CreateDatabaseError? {
      AdvanceGoesOn(s, r, Ended(DatabaseFailed));
    } else if run.token !in s.checkouts {
      AdvanceGoesOn(s, r, Ended(Returned(FindOrder(s, run.token))));
    } else if run.pc.actionRequired {
      ReleaseGoesOn(s, r, ActionRequired);
    } else if result.RefundInProgress? {
      AdvanceGoesOn(s, r, Ended(RefundOngoing));
    } else if FindOrder(s, run.token).Some? {
      AdvanceGoesOn(s, r, Ended(FoundExisting(FindOrder(s, run.token).value)));
    } else {
      match result
      case Success(confirmed) => CreateIsMade(s, r, run.voucher, confirmed, true);
      case InsufficientStock => ReleaseGoesOn(s, r, OutOfStock);
      case GiftCardNotApplicable => ReleaseGoesOn(s, r, GiftCardRefused);
      case _ => AdvanceGoesOn(s, r, Ended(UnexpectedError));
    }
  }

  lemma TransactionMakes(s: State, e: Event)
    requires Steps(s, e) && e.CreateFromCheckout?
    ensures OrdersGoOn(s, Next(s, e)) || MakesNow(s, e, s.nextOrder)
  {
    var r, result := e.run, e.result;
    var run := s.runs[r];
    if result.CreateDatabaseError? {
      AdvanceGoesOn(s, r, Ended(DatabaseFailed));
    } else if run.token !in s.checkouts {
      AdvanceGoesOn(s, r, Ended(Returned(FindOrder(s, run.token))));
    } else if result.Success? {
      CreateIsMade(s, r, OrderVoucher(s, r, e.inWindow), result.confirmed,
                   run.flow.WithTransactions? && run.flow.deletesCheckout);
    } else {
      AdvanceGoesOn(s, r, CreateWithTransactions(s, r, e.inWindow, result).runs[r].pc);
    }
  }

  lemma OtherStepGoesOn(s: State, e: Event)
    requires Sane(s) && Steps(s, e) && !e.SecondTransaction? && !e.CreateFromCheckout?
    ensures OrdersGoOn(s, Next(s, e))
  {
    if e.Crash? {
      AdvanceGoesOn(s, e.run, Ended(Crashed));
    } else {
      RunEventIsRunStep(s, e);
      SameOrders(s, Next(s, e), e.run);
    }
  }

  lemma SameOrders(s: State, t: State, r: RunId)
    requires RunStep(s, t, r) && r in s.runs && s.runs[r].pc != Paid(false) && s.runs[r].pc != Creating
    ensures OrdersGoOn(s, t)
  {
  }

  lemma OthersGoOn(s: State, e: Event)
    requires !IsRunEvent(e)
    ensures OrdersGoOn(s, Next(s, e))
  {
    match e
    case ExpireOrders(batch) =>
    case DeleteExpired(batch) =>
    case Arrive(_, _, _, _, _) =>
    case SetVoucher(_, _) =>
    case RemoveCheckout(_) =>
  }

  lemma EventMakes(s: State, e: Event)
    requires Sane(s)
    ensures OrdersGoOn(s, Next(s, e)) || MakesNow(s, e, s.nextOrder)
  {
    if !IsRunEvent(e) {
      OthersGoOn(s, e);
    } else if !Steps(s, e) {
      NoStepNoChange(s, e);
    } else if e.SecondTransaction? {
      SecondMakes(s, e);
    } else if e.CreateFromCheckout? {
      TransactionMakes(s, e);
    } else {
      OtherStepGoesOn(s, e);
    }
  }

  lemma GoneOnFits(s: State, t: State, e: Event, o: OrderId, r: RunId, steps: seq<Event>)
    requires Sane(s) && t == Next(s, e) && OrdersGoOn(s, t) && MadeBy(t, o, r)
    requires MadeBy(s, o, r) && r in s.runs && OrderFits(s.orders[o], s.runs[r], o, steps)
    ensures r in t.runs && OrderFits(t.orders[o], t.runs[r], o, steps) && !(Steps(s, e) && e.run == r)
  {
    EventStands(s, e);
  }

  /** The order that a step makes fits the steps of its request. */
  lemma MadeFits(s: State, e: Event, o: OrderId, steps: seq<Event>)
    requires MakesNow(s, e, o) && Told(s.runs[e.run].pc, steps) && Tells(Next(s, e), e.run, steps + [e])
    ensures OrderFits(Next(s, e).orders[o], Next(s, e).runs[e.run], o, steps + [e])
  {
    assert (steps + [e])[..|steps|] == steps;
  }

  /** The other orders stay when one is made. */
  lemma MadeBesides(s: State, e: Event, o: OrderId, r: RunId, steps: seq<Event>)
    requires Sane(s) && MakesNow(s, e, s.nextOrder) && o != s.nextOrder && MadeBy(Next(s, e), o, r)
    requires MadeBy(s, o, r) ==> r in s.runs && OrderFits(s.orders[o], s.runs[r], o, steps)
    ensures e.run != r && r in Next(s, e).runs
    ensures OrderFits(Next(s, e).orders[o], Next(s, e).runs[r], o, steps)
  {
    EventStands(s, e);
    assert Next(s, e).orders[o] == s.orders[o];
  }

  /** In every interleaving of both flows, an order of a request is for its checkout and customer, and was made by a
      second transaction after a cleared payment, or by a creation after the usage was taken. */
  lemma {:induction false} OrdersFitTheirSteps(s: State, events: seq<Event>, o: OrderId, r: RunId)
    requires Initial(s) && MadeBy(Behave(s, events), o, r)
    ensures var t := Behave(s, events); r in t.runs && OrderFits(t.orders[o], t.runs[r], o, StepsOf(s, events, r))
  {
    assert events != [];
    var before, e := events[..|events| - 1], events[|events| - 1];
    var was := Behave(s, before);
    if MadeBy(was, o, r) {
      OrdersFitTheirSteps(s, before, o, r);
    }
    BehaviourKeeps(s, before, map[], 0);
    OrderStillFits(s, before, e, o, r);
  }

  lemma OrderStillFits(s: State, before: seq<Event>, e: Event, o: OrderId, r: RunId)
    requires Initial(s) && Sane(Behave(s, before)) && MadeBy(Next(Behave(s, before), e), o, r)
    requires
      var was := Behave(s, before);
      MadeBy(was, o, r) ==> r in was.runs && OrderFits(was.orders[o], was.runs[r], o, StepsOf(s, before, r))
    ensures
      var t := Next(Behave(s, before), e);
      var steps := StepsOf(s, before, r) + if Steps(Behave(s, before), e) && e.run == r then [e] else [];
      r in t.runs && OrderFits(t.orders[o], t.runs[r], o, steps)
  {
    var was, steps := Behave(s, before), StepsOf(s, before, r);
    EventMakes(was, e);
    assert steps + [] == steps;
    if !MakesNow(was, e, was.nextOrder) {
      GoneOnFits(was, Next(was, e), e, o, r, steps);
    } else if o == was.nextOrder {
      RequestsTellTheirSteps(s, before, r);
      EventTellsSteps(was, e, r, steps);
      MadeFits(was, e, o, steps);
    } else {
      MadeBesides(was, e, o, r, steps);
    }
  }

  // ----- The payment flow

  /** A payment after which there is no order. */
  predicate Refuses(payment: PaymentResult) {
    payment == Charged(true) || payment == Declined || payment == BecameInactive
  }

  /** In every interleaving of both flows, a request whose payment failed, requires an action or became inactive never
      has an order. */
  lemma RefusedPaymentMakesNoOrder(s: State, events: seq<Event>, r: RunId, payment: PaymentResult)
    requires Initial(s) && ProcessPayment(r, payment) in StepsOf(s, events, r) && Refuses(payment)
    ensures forall o :: o in Behave(s, events).orders ==> Behave(s, events).orders[o].creator != Some(r)
  {
    var t, steps := Behave(s, events), StepsOf(s, events, r);
    forall o | o in t.orders ensures t.orders[o].creator != Some(r) {
      if MadeBy(t, o, r) {
        OrdersFitTheirSteps(s, events, o, r);
        NoRefusalInOrder(steps, r, payment);
      }
    }
  }

  lemma NoRefusalInOrder(steps: seq<Event>, r: RunId, payment: PaymentResult)
    requires steps != [] && MakesOrder(steps[..|steps| - 1], steps[|steps| - 1])
    requires ProcessPayment(r, payment) in steps
    ensures !Refuses(payment)
  {
    var before, last := steps[..|steps| - 1], steps[|steps| - 1];
    var i :| 0 <= i < |steps| && steps[i] == ProcessPayment(r, payment);
    assert i < |before| && before[i] == steps[i];
    if last.SecondTransaction? {
      assert before[..1][0] == before[0];
    }
  }

  /** Nothing is made, deleted or changed of orders and checkouts. */
  predicate SameOrdersAndCheckouts(s: State, t: State) {
    t.orders == s.orders && t.nextOrder == s.nextOrder && t.created == s.created && t.checkouts == s.checkouts
  }

  /** Giving back the usage fails: the counter of a limited voucher is at zero. */
  predicate CannotGiveBack(s: State, voucher: Option<VoucherCode>) {
    voucher.Some? && voucher.value in s.vouchers && s.vouchers[voucher.value].limit.Some?
    && s.vouchers[voucher.value].limit.value > 0 && (voucher.value !in s.used || s.used[voucher.value] == 0)
  }

  /** The voucher is given back: one usage of a limited voucher, and the record of the customer. */
  predicate GaveBack(s: State, t: State, voucher: Option<VoucherCode>, email: Email) {
    match voucher
    case None => t.used == s.used && t.records == s.records
    case Some(v) =>
      && t.records == s.records - {(v, email)}
      && t.used == if v in s.vouchers && s.vouchers[v].limit.Some? && s.vouchers[v].limit.value > 0 && v in s.used
                      && s.used[v] > 0
                   then s.used[v := s.used[v] - 1] else s.used
  }

  lemma StandsPaid(s: State, events: seq<Event>, r: RunId, actionRequired: bool)
    requires Initial(s)
    requires if actionRequired then PaidWith(StepsOf(s, events, r), Charged(true)) else Cleared(StepsOf(s, events, r))
    ensures At(Behave(s, events), r, Paid(actionRequired))
  {
    RequestsTellTheirSteps(s, events, r);
  }

  lemma ReleaseGivesBack(s: State, r: RunId, outcome: Outcome)
    requires r in s.runs
    ensures var t, run := Release(s, r, outcome), s.runs[r];
            && SameOrdersAndCheckouts(s, t) && r in t.runs
            && if CannotGiveBack(s, run.voucher)
               then t.runs[r].pc == Ended(DatabaseFailed) && t.used == s.used && t.records == s.records
               else t.runs[r].pc == Ended(outcome) && GaveBack(s, t, run.voucher, run.email)
  {
    var voucher := s.runs[r].voucher;
    if voucher.Some? {
      assert ReleaseFails(s, voucher) == CannotGiveBack(s, voucher);
      if !ReleaseFails(s, voucher) {
        assert Release(s, r, outcome) == GiveBack(s, r, voucher.value, outcome);
      }
    }
  }

  /** In every interleaving, after a payment that requires an action the second transaction keeps orders and checkouts
      and gives the voucher back, unless the counter cannot go lower, which undoes it. */
  lemma ActionRequiredMakesNoOrder(s: State, events: seq<Event>, r: RunId, result: CreateResult)
    requires Initial(s) && PaidWith(StepsOf(s, events, r), Charged(true)) && !result.CreateDatabaseError?
    requires r in Behave(s, events).runs
    requires Behave(s, events).runs[r].token in Behave(s, events).checkouts
    ensures var was := Behave(s, events);
            var now, run := Next(was, SecondTransaction(r, result)), was.runs[r];
            && SameOrdersAndCheckouts(was, now) && r in now.runs
            && if CannotGiveBack(was, run.voucher)
               then now.runs[r].pc == Ended(DatabaseFailed) && now.used == was.used && now.records == was.records
               else now.runs[r].pc == Ended(ActionRequired) && GaveBack(was, now, run.voucher, run.email)
  {
    StandsPaid(s, events, r, true);
    var was := Behave(s, events);
    assert Next(was, SecondTransaction(r, result)) == Release(was, r, ActionRequired);
    ReleaseGivesBack(was, r, ActionRequired);
  }

  lemma HolderCanGiveBack(s: State, events: seq<Event>, r: RunId)
    requires Initial(s) && PaymentArrivals(events) && At(Behave(s, events), r, Paid(true))
    ensures !CannotGiveBack(Behave(s, events), Behave(s, events).runs[r].voucher)
  {
    var t := Behave(s, events);
    BehaviourKeeps(s, events, map[], 0);
    assert RunSane(t, t.runs[r]);
    if t.runs[r].voucher.Some? && Counted(t, t.runs[r].voucher.value) {
      var v := t.runs[r].voucher.value;
      PaymentFlowAccounts(s, events, v);
      assert r in Holding(t.runs, v);
    }
  }

  /** In the payment flow the counter can always go lower. */
  lemma ActionRequiredGivesBack(s: State, events: seq<Event>, r: RunId, result: CreateResult)
    requires Initial(s) && PaymentArrivals(events) && PaidWith(StepsOf(s, events, r), Charged(true))
    requires !result.CreateDatabaseError? && r in Behave(s, events).runs
    requires Behave(s, events).runs[r].token in Behave(s, events).checkouts
    ensures var was := Behave(s, events);
            var now, run := Next(was, SecondTransaction(r, result)), was.runs[r];
            && SameOrdersAndCheckouts(was, now) && r in now.runs && now.runs[r].pc == Ended(ActionRequired)
            && GaveBack(was, now, run.voucher, run.email)
  {
    StandsPaid(s, events, r, true);
    HolderCanGiveBack(s, events, r);
    ActionRequiredMakesNoOrder(s, events, r, result);
  }

  /** The order of a run is new, its checkout is gone if the run deletes it, and nothing else is different. */
  predicate OrderMade(s: State, t: State, r: RunId, voucher: Option<VoucherCode>, confirmed: bool, deletes: bool)
    requires r in s.runs
  {
    var run := s.runs[r];
    && t.orders == s.orders[s.nextOrder :=
         Order(run.token, voucher, run.email, if confirmed then Unfulfilled else Unconfirmed, Some(r))]
    && t.created == s.created + [run.token]
    && t.checkouts == (if deletes then s.checkouts - {run.token} else s.checkouts)
    && t.used == s.used && t.records == s.records
    && r in t.runs && t.runs[r].pc == Ended(Completed(s.nextOrder))
  }

  /** The checkout has the order already: it is returned, and the checkout goes. */
  predicate OrderFound(s: State, t: State, r: RunId)
    requires r in s.runs
  {
    var token := s.runs[r].token;
    && t.orders == s.orders && t.created == s.created && t.checkouts == s.checkouts - {token}
    && t.used == s.used && t.records == s.records
    && r in t.runs && t.runs[r].pc.Ended? && t.runs[r].pc.outcome.FoundExisting?
    && var found := t.runs[r].pc.outcome.order;
       && found in s.orders && s.orders[found].token == token
       && forall o :: o in s.orders && s.orders[o].token == token ==> found <= o
  }

  lemma CreateMakes(s: State, r: RunId, voucher: Option<VoucherCode>, confirmed: bool, deletes: bool)
    requires r in s.runs
    ensures OrderMade(s, Create(s, r, voucher, confirmed, deletes), r, voucher, confirmed, deletes)
  {
  }

  /** After a payment without an action required, the second transaction makes the order of the checkout, confirmed as
      it was asked to, when there is none, and otherwise returns the first there is and deletes the checkout. */
  lemma ClearedPaymentMakesOrder(s: State, events: seq<Event>, r: RunId, confirmed: bool)
    requires Initial(s) && Cleared(StepsOf(s, events, r)) && r in Behave(s, events).runs
    requires Behave(s, events).runs[r].token in Behave(s, events).checkouts
    ensures var was := Behave(s, events);
            var now, run := Next(was, SecondTransaction(r, Success(confirmed))), was.runs[r];
            if exists o :: o in was.orders && was.orders[o].token == run.token then OrderFound(was, now, r)
            else OrderMade(was, now, r, run.voucher, confirmed, true)
  {
    StandsPaid(s, events, r, false);
    var was := Behave(s, events);
    SecondOfCleared(was, r, confirmed);
    if o :| o in was.orders && was.orders[o].token == was.runs[r].token {
      assert o in OrdersOf(was, was.runs[r].token);
    }
  }

  lemma SecondOfCleared(s: State, r: RunId, confirmed: bool)
    requires At(s, r, Paid(false)) && s.runs[r].token in s.checkouts
    ensures var t := Next(s, SecondTransaction(r, Success(confirmed)));
            if OrdersOf(s, s.runs[r].token) != {} then OrderFound(s, t, r)
            else OrderMade(s, t, r, s.runs[r].voucher, confirmed, true)
  {
    forall o | o in s.orders && s.orders[o].token == s.runs[r].token ensures o in OrdersOf(s, s.runs[r].token) {
    }
    CreateMakes(s, r, s.runs[r].voucher, confirmed, true);
  }
}
