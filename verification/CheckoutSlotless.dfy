/** Which events make an order with a voucher for which no slot was taken. */
module CheckoutSlotless {
  import opened Wrappers
  import opened CheckoutProtocol
  import opened CheckoutAccounting

  /** The event in which a request takes the usage of its voucher, and finds the voucher inactive. */
  predicate FindsInactive(s: State, e: Event, r: RunId, v: VoucherCode) {
    && e.TakeUsage? && e.run == r && !e.refused
    && At(s, r, Starting) && s.runs[r].flow.WithTransactions?
    && s.runs[r].voucher == Some(v) && !Active(s, v, e.inWindow)
  }

  /** Some event of a run of the system is such an event. */
  predicate FoundInactive(s: State, events: seq<Event>, r: RunId, v: VoucherCode) {
    events != []
    && (FoundInactive(s, events[..|events| - 1], r, v)
        || FindsInactive(Behave(s, events[..|events| - 1]), events[|events| - 1], r, v))
  }

  /** A request of the transaction flow creates its order, in an event in which nothing fails. */
  predicate CreatesOrder(s: State, e: Event) {
    e.CreateFromCheckout? && e.result.Success? && At(s, e.run, Creating) && s.runs[e.run].token in s.checkouts
  }

  /** After some events a request creates an order with a voucher that was inactive when the request took its usage,
      or that the checkout got only after the request was loaded. */
  predicate CreatesSlotless(s: State, events: seq<Event>, e: Event, v: VoucherCode) {
    var now := Behave(s, events);
    CreatesOrder(now, e)
    && match now.runs[e.run].voucher
       case Some(w) => w == v && FoundInactive(s, events, e.run, v)
       case None => now.checkouts[now.runs[e.run].token] == Some(v) && Active(now, v, e.inWindow)
  }

  /** How often that happens. */
  function SlotlessOrders(s: State, events: seq<Event>, v: VoucherCode): nat {
    if events == [] then 0
    else
      var before := events[..|events| - 1];
      SlotlessOrders(s, before, v) + if CreatesSlotless(s, before, events[|events| - 1], v) then 1 else 0
  }

  // ----- A request without a slot found its voucher inactive

  /** `found`: whether the request found the voucher inactive so far. */
  predicate SlotTells(s: State, r: RunId, v: VoucherCode, found: bool) {
    && (r !in s.runs || s.runs[r].pc.Starting? ==> !found)
    && (At(s, r, Creating) && s.runs[r].voucher == Some(v) ==> (found <==> !s.runs[r].slot))
  }

  /** A step that is not one of the request. */
  predicate OtherRun(s: State, t: State, r: RunId) {
    if r in s.runs then r in t.runs && t.runs[r] == s.runs[r] else r in t.runs ==> t.runs[r].pc.Starting?
  }

  lemma OtherRunsStay(s: State, e: Event, r: RunId)
    requires Sane(s) && (IsRunEvent(e) ==> e.run != r)
    ensures OtherRun(s, Next(s, e), r)
  {
    if IsRunEvent(e) {
      RunEventIsRunStep(s, e);
      RunStepKeepsOthers(s, Next(s, e), e.run, r);
    } else {
      OthersChange(s, e);
    }
  }

  lemma RunStepKeepsOthers(s: State, t: State, q: RunId, r: RunId)
    requires RunStep(s, t, q) && q != r
    ensures OtherRun(s, t, r)
  {
    if t != s && !Moves(s, t, q) {
      var voucher, confirmed, deletes :| OrderCreated(s, t, q, voucher, confirmed, deletes);
    }
  }

  /** A request that neither waits for its usage nor has it. */
  predicate Left(t: State, r: RunId) {
    r in t.runs && !t.runs[r].pc.Starting? && !t.runs[r].pc.Creating?
  }

  lemma AdvanceLeaves(s: State, r: RunId, pc: Pc)
    requires r in s.runs && !pc.Starting? && !pc.Creating?
    ensures Left(Advance(s, r, pc), r)
  {
  }

  lemma FirstVoucherLeaves(s: State, r: RunId, v: VoucherCode, inWindow: bool, fault: FirstFault)
    requires r in s.runs
    ensures Left(FirstWithVoucher(s, r, v, inWindow, fault), r)
  {
    AdvanceLeaves(s, r, Ended(VoucherInactive));
    AdvanceLeaves(s, r, Ended(TaxFailed));
  }

  lemma FirstLeaves(s: State, r: RunId, inWindow: bool, fault: FirstFault)
    requires r in s.runs
    ensures Left(First(s, r, inWindow, fault), r)
  {
    var token := s.runs[r].token;
    if fault.FirstDatabaseError? {
      AdvanceLeaves(s, r, Ended(DatabaseFailed));
    } else if token !in s.checkouts {
      AdvanceLeaves(s, r, Ended(Returned(FindOrder(s, token))));
    } else if fault.RefusedEarly? {
      AdvanceLeaves(s, r, Ended(Rejected));
    } else if s.checkouts[token].Some? {
      FirstVoucherLeaves(s, r, s.checkouts[token].value, inWindow, fault);
    } else {
      AdvanceLeaves(s, r, Ended(TaxFailed));
      AdvanceLeaves(s, r, Ended(UnexpectedError));
      AdvanceLeaves(s, r, Paying);
    }
  }

  lemma CounterLeaves(s: State, r: RunId)
    requires r in s.runs && s.runs[r].voucher.Some?
    ensures Left(ReleaseCounter(s, r), r)
  {
    AdvanceLeaves(s, r, ReleasingRecord);
    AdvanceLeaves(s, r, Ended(DatabaseFailed));
  }

  lemma PayLeaves(s: State, r: RunId, payment: PaymentResult)
    requires r in s.runs
    ensures Left(Pay(s, r, payment), r)
  {
    match payment
    case NoPayment => AdvanceLeaves(s, r, Paid(false));
    case Charged(actionRequired) => AdvanceLeaves(s, r, Paid(actionRequired));
    case BecameInactive => AdvanceLeaves(s, r, Ended(PaymentInactive));
    case Declined =>
      if s.runs[r].voucher.None? {
        AdvanceLeaves(s, r, Ended(PaymentFailed));
      } else {
        CounterLeaves(s, r);
      }
  }

  lemma ReleaseLeaves(s: State, r: RunId, outcome: Outcome)
    requires r in s.runs
    ensures Left(Release(s, r, outcome), r)
  {
    AdvanceLeaves(s, r, Ended(outcome));
    AdvanceLeaves(s, r, Ended(DatabaseFailed));
  }

  lemma CreateLeaves(s: State, r: RunId, voucher: Option<VoucherCode>, confirmed: bool, deletes: bool)
    requires r in s.runs
    ensures Left(Create(s, r, voucher, confirmed, deletes), r)
  {
  }

  lemma SecondLeaves(s: State, r: RunId, result: CreateResult)
    requires r in s.runs && s.runs[r].pc.Paid?
    ensures Left(Second(s, r, result), r)
  {
    var run := s.runs[r];
    if result.CreateDatabaseError? {
      AdvanceLeaves(s, r, Ended(DatabaseFailed));
    } else if run.token !in s.checkouts {
      AdvanceLeaves(s, r, Ended(Returned(FindOrder(s, run.token))));
    } else if run.pc.actionRequired {
      ReleaseLeaves(s, r, ActionRequired);
    } else if result.RefundInProgress? {
      AdvanceLeaves(s, r, Ended(RefundOngoing));
    } else if FindOrder(s, run.token).Some? {
      AdvanceLeaves(s, r, Ended(FoundExisting(FindOrder(s, run.token).value)));
    } else {
      match result
      case Success(confirmed) => CreateLeaves(s, r, run.voucher, confirmed, true);
      case InsufficientStock => ReleaseLeaves(s, r, OutOfStock);
      case GiftCardNotApplicable => ReleaseLeaves(s, r, GiftCardRefused);
      case _ => AdvanceLeaves(s, r, Ended(UnexpectedError));
    }
  }

  lemma TransactionLeaves(s: State, r: RunId, inWindow: bool, result: CreateResult)
    requires r in s.runs
    ensures Left(CreateWithTransactions(s, r, inWindow, result), r)
  {
    var run := s.runs[r];
    if result.CreateDatabaseError? {
      AdvanceLeaves(s, r, Ended(DatabaseFailed));
    } else if run.token !in s.checkouts {
      AdvanceLeaves(s, r, Ended(Returned(FindOrder(s, run.token))));
    } else if result.Success? {
      CreateLeaves(s, r, OrderVoucher(s, r, inWindow), result.confirmed,
                   run.flow.WithTransactions? && run.flow.deletesCheckout);
    } else {
      AdvanceLeaves(s, r, CreateWithTransactions(s, r, inWindow, result).runs[r].pc);
    }
  }

  lemma DropLeaves(s: State, r: RunId)
    requires r in s.runs
    ensures Left(DropRecord(s, r), r)
  {
    AdvanceLeaves(s, r, Ended(PaymentFailed));
  }

  /** Only taking the usage leads to `Creating`. */
  lemma OwnStep(s: State, e: Event, r: RunId)
    requires IsRunEvent(e) && e.run == r && r in s.runs && !e.TakeUsage?
    ensures Next(s, e) == s || Left(Next(s, e), r)
  {
    match e
    case FirstTransaction(_, inWindow, fault) => FirstLeaves(s, r, inWindow, fault);
    case ProcessPayment(_, payment) => PayLeaves(s, r, payment);
    case ReleaseRecord(_) => DropLeaves(s, r);
    case SecondTransaction(_, result) => if s.runs[r].pc.Paid? { SecondLeaves(s, r, result); }
    case CreateFromCheckout(_, inWindow, result) => TransactionLeaves(s, r, inWindow, result);
    case Crash(_) => AdvanceLeaves(s, r, Ended(Crashed));
  }

  lemma AdvanceTells(s: State, r: RunId, pc: Pc, v: VoucherCode)
    requires r in s.runs && !s.runs[r].slot && !pc.Starting?
    ensures SlotTells(Advance(s, r, pc), r, v, pc.Creating? && s.runs[r].voucher == Some(v))
  {
  }

  lemma TakenTells(s: State, r: RunId, w: VoucherCode, v: VoucherCode)
    requires r in s.runs && w in s.used && Active(s, w, true) && Counted(s, v)
    ensures SlotTells(Take(s, r, w, Creating), r, v, false)
  {
  }

  /** Taking the usage of a counted voucher takes a slot exactly when the voucher is active. */
  lemma TakingTells(s: State, r: RunId, inWindow: bool, refused: bool, v: VoucherCode)
    requires r in s.runs && !s.runs[r].slot && Counted(s, v)
    ensures SlotTells(TakeVoucher(s, r, inWindow, refused), r, v,
                      !refused && s.runs[r].voucher == Some(v) && !Active(s, v, inWindow))
  {
    var run := s.runs[r];
    if refused {
      AdvanceTells(s, r, Ended(Rejected), v);
    } else if run.voucher.None? || !Active(s, run.voucher.value, inWindow) {
      AdvanceTells(s, r, Creating, v);
    } else if Once(s, run.voucher.value) && (run.voucher.value, run.email) in s.records {
      AdvanceTells(s, r, Ended(AlreadyUsedByCustomer), v);
    } else {
      TakenTells(s, r, run.voucher.value, v);
    }
  }

  lemma StepTells(s: State, e: Event, r: RunId, v: VoucherCode, found: bool)
    requires Sane(s) && Counted(s, v) && SlotTells(s, r, v, found)
    ensures SlotTells(Next(s, e), r, v, found || FindsInactive(s, e, r, v))
  {
    if !IsRunEvent(e) || e.run != r {
      OtherRunsStay(s, e, r);
    } else if r in s.runs && !e.TakeUsage? {
      OwnStep(s, e, r);
    } else if At(s, r, Starting) && s.runs[r].flow.WithTransactions? {
      assert RunSane(s, s.runs[r]);
      TakingTells(s, r, e.inWindow, e.refused, v);
    }
  }

  lemma {:induction false} SlotTellsAlways(s: State, events: seq<Event>, r: RunId, v: VoucherCode)
    requires Initial(s) && Counted(s, v)
    ensures SlotTells(Behave(s, events), r, v, FoundInactive(s, events, r, v))
  {
    if events != [] {
      var before := events[..|events| - 1];
      SlotTellsAlways(s, before, r, v);
      BehaviourKeeps(s, before, map[], v);
      StepTells(Behave(s, before), events[|events| - 1], r, v, FoundInactive(s, before, r, v));
    }
  }

  // ----- Where the count grows

  /** How much one step adds to the count of a voucher. */
  predicate Adds(s: State, t: State, v: VoucherCode, more: bool) {
    v in s.unslotted && v in t.unslotted && t.unslotted[v] == s.unslotted[v] + if more then 1 else 0
  }

  lemma CreatingAdds(s: State, r: RunId, voucher: Option<VoucherCode>, confirmed: bool, deletes: bool, v: VoucherCode)
    requires r in s.runs && v in s.unslotted
    ensures Adds(s, Create(s, r, voucher, confirmed, deletes), v, voucher == Some(v) && !s.runs[r].slot)
  {
  }

  /** A request of the payment flow holds a slot of its voucher when it creates the order. */
  lemma PaidCreateAddsNothing(s: State, t: State, r: RunId, voucher: Option<VoucherCode>, confirmed: bool,
                              deletes: bool, v: VoucherCode)
    requires Sane(s) && Counted(s, v) && OrderCreated(s, t, r, voucher, confirmed, deletes)
    requires s.runs[r].flow.WithPayment?
    ensures Adds(s, t, v, false)
  {
    assert RunSane(s, s.runs[r]);
    CreatingAdds(s, r, voucher, confirmed, deletes, v);
  }

  lemma OtherEventAddsNothing(s: State, e: Event, v: VoucherCode)
    requires Sane(s) && Counted(s, v) && IsRunEvent(e) && !e.CreateFromCheckout?
    ensures Adds(s, Next(s, e), v, false)
  {
    var t := Next(s, e);
    RunEventIsRunStep(s, e);
    if t != s && !Moves(s, t, e.run) {
      var voucher, confirmed, deletes :| OrderCreated(s, t, e.run, voucher, confirmed, deletes);
      if s.runs[e.run].flow.WithTransactions? {
        WaitingForTransaction(s, e);
      } else {
        PaidCreateAddsNothing(s, t, e.run, voucher, confirmed, deletes, v);
      }
    }
  }

  lemma WaitingForTransaction(s: State, e: Event)
    requires IsRunEvent(e) && !e.CreateFromCheckout? && At(s, e.run, Creating)
    ensures Next(s, e) == s || Next(s, e) == EndRun(s, e.run, Crashed)
  {
  }

  lemma TransactionAdds(s: State, e: Event, v: VoucherCode)
    requires Sane(s) && Counted(s, v) && e.CreateFromCheckout?
    ensures Adds(s, Next(s, e), v,
                 CreatesOrder(s, e) && OrderVoucher(s, e.run, e.inWindow) == Some(v) && !s.runs[e.run].slot)
  {
    if CreatesOrder(s, e) {
      var run := s.runs[e.run];
      var voucher := OrderVoucher(s, e.run, e.inWindow);
      var deletes := run.flow.WithTransactions? && run.flow.deletesCheckout;
      assert Next(s, e) == Create(s, e.run, voucher, e.result.confirmed, deletes);
      CreatingAdds(s, e.run, voucher, e.result.confirmed, deletes, v);
    }
  }

  /** In every interleaving of both flows, an event makes an order with a counted voucher and no slot exactly when a
      request creates its order after finding the voucher inactive, or with a voucher that it found only then. */
  lemma {:induction false} SlotlessExactly(s: State, events: seq<Event>, e: Event, v: VoucherCode)
    requires Initial(s) && Counted(s, v)
    ensures Adds(Behave(s, events), Next(Behave(s, events), e), v, CreatesSlotless(s, events, e, v))
  {
    var now := Behave(s, events);
    BehaviourKeeps(s, events, map[], v);
    if !IsRunEvent(e) {
      OthersChange(now, e);
    } else if !e.CreateFromCheckout? {
      OtherEventAddsNothing(now, e, v);
    } else {
      TransactionAdds(now, e, v);
      if CreatesOrder(now, e) {
        SlotTellsAlways(s, events, e.run, v);
        assert RunSane(now, now.runs[e.run]);
      }
    }
  }

  lemma {:induction false} SlotlessOrdersCounted(s: State, events: seq<Event>, v: VoucherCode)
    requires Initial(s) && Counted(s, v)
    ensures v in Behave(s, events).unslotted && Behave(s, events).unslotted[v] == SlotlessOrders(s, events, v)
  {
    if events != [] {
      var before := events[..|events| - 1];
      SlotlessOrdersCounted(s, before, v);
      SlotlessExactly(s, before, events[|events| - 1], v);
    }
  }

  /** So the exact account of a counter needs nothing but the store and the events. */
  lemma {:induction false} CountersBalanceByEvents(s: State, events: seq<Event>, v: VoucherCode)
    requires Initial(s) && Counted(s, v)
    ensures var t := Behave(s, events);
            v in t.used
            && t.used[v] + SlotlessOrders(s, events, v)
               == StartOf(s)[v] + RunSlots(t.runs, v) + LiveOrders(t.orders, v)
  {
    CountersBalance(s, events, v);
    SlotlessOrdersCounted(s, events, v);
  }

  /** And the limit of a voucher bounds its live orders but for those that were made in this way. */
  lemma {:induction false} LimitBoundsLiveOrders(s: State, events: seq<Event>, v: VoucherCode)
    requires Initial(s) && Counted(s, v) && s.used[v] <= s.vouchers[v].limit.value
    ensures StartOf(s)[v] + LiveOrders(Behave(s, events).orders, v)
            <= s.vouchers[v].limit.value + SlotlessOrders(s, events, v)
  {
    CountersBalanceByEvents(s, events, v);
    BehaviourKeeps(s, events, map[], v);
  }
}
