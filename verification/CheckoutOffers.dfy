/** When requests go on, and the vouchers that their orders get. */
module CheckoutOffers {
  import opened Wrappers
  import opened CheckoutProtocol
  import opened CheckoutAccounting
  import opened CheckoutHistory

  /** A voucher that can be used now, said with its settings and its counter. */
  predicate Usable(s: State, v: VoucherCode, inWindow: bool) {
    && inWindow && v in s.vouchers && v in s.used
    && match s.vouchers[v].limit
       case None => true
       case Some(limit) => s.used[v] < limit
  }

  /** A customer who cannot use the voucher again. */
  predicate Exhausted(s: State, v: VoucherCode, email: Email) {
    v in s.vouchers && s.vouchers[v].oncePerCustomer && (v, email) in s.records
  }

  /** A first transaction goes on to the payment exactly when nothing fails, the checkout is there, and its voucher, if
      it has one, can be used by this customer. */
  lemma FirstTransactionGoesOn(s: State, r: RunId, inWindow: bool, fault: FirstFault)
    requires At(s, r, Starting) && s.runs[r].flow.WithPayment?
    ensures var t, run := Next(s, FirstTransaction(r, inWindow, fault)), s.runs[r];
            && r in t.runs
            && (t.runs[r].pc == Paying <==>
                  && fault.NoFault? && run.token in s.checkouts
                  && match s.checkouts[run.token]
                     case None => true
                     case Some(v) => Usable(s, v, inWindow) && !Exhausted(s, v, run.email))
  {
    assert Next(s, FirstTransaction(r, inWindow, fault)) == First(s, r, inWindow, fault);
    if fault.NoFault? {
      NoFaultGoesOn(s, r, inWindow);
    } else {
      FirstTold(s, r, inWindow, fault);
      assert !Told(Paying, [FirstTransaction(r, inWindow, fault)]);
    }
  }

  lemma NoFaultGoesOn(s: State, r: RunId, inWindow: bool)
    requires At(s, r, Starting)
    ensures var t, run := First(s, r, inWindow, NoFault), s.runs[r];
            && r in t.runs
            && (t.runs[r].pc == Paying <==>
                  && run.token in s.checkouts
                  && match s.checkouts[run.token]
                     case None => true
                     case Some(v) => Usable(s, v, inWindow) && !Exhausted(s, v, run.email))
  {
    var run := s.runs[r];
    if run.token in s.checkouts && s.checkouts[run.token].Some? {
      var v := s.checkouts[run.token].value;
      assert Active(s, v, inWindow) == Usable(s, v, inWindow);
      if Active(s, v, inWindow) {
        assert Exhausted(s, v, run.email) == (Once(s, v) && (v, run.email) in s.records);
      }
    }
  }

  /** One more usage of a voucher with a usage limit. */
  function Counting(s: State, v: VoucherCode): map<VoucherCode, nat>
    requires v in s.vouchers && v in s.used
  {
    if s.vouchers[v].limit.Some? && s.vouchers[v].limit.value > 0 then s.used[v := s.used[v] + 1] else s.used
  }

  /** The record of a customer for a voucher that is good once for each. */
  function Recording(s: State, v: VoucherCode, email: Email): set<Record>
    requires v in s.vouchers
  {
    if s.vouchers[v].oncePerCustomer then s.records + {(v, email)} else s.records
  }

  /** A first transaction that can use the voucher of its checkout counts it. That the customer used it before does not
      undo this, nor does an unexpected error; an error of the taxes gives counter and record back at once. */
  lemma FirstTransactionCounts(s: State, r: RunId, inWindow: bool, fault: FirstFault, v: VoucherCode)
    requires At(s, r, Starting) && s.runs[r].flow.WithPayment? && s.runs[r].token in s.checkouts
    requires s.checkouts[s.runs[r].token] == Some(v) && Usable(s, v, inWindow)
    requires !fault.FirstDatabaseError? && !fault.RefusedEarly?
    ensures var t, email := Next(s, FirstTransaction(r, inWindow, fault)), s.runs[r].email;
            && r in t.runs
            && if Exhausted(s, v, email) then
                 t.used == Counting(s, v) && t.records == s.records && t.runs[r].pc == Ended(AlreadyUsedByCustomer)
                 && t.runs[r].voucher == Some(v)
               else if fault.TaxError? then
                 t.used == s.used && t.records == s.records - {(v, email)} && t.runs[r].pc == Ended(TaxFailed)
               else
                 t.used == Counting(s, v) && t.records == Recording(s, v, email) && t.runs[r].voucher == Some(v)
                 && t.runs[r].pc == if fault.NoFault? then Paying else Ended(UnexpectedError)
  {
    assert Next(s, FirstTransaction(r, inWindow, fault)) == FirstWithVoucher(s, r, v, inWindow, fault);
    assert Active(s, v, inWindow);
    assert Exhausted(s, v, s.runs[r].email) == (Once(s, v) && (v, s.runs[r].email) in s.records);
    if !Exhausted(s, v, s.runs[r].email) && !fault.TaxError? {
      TakeCounts(s, r, v, if fault.FirstUnexpected? then Ended(UnexpectedError) else Paying);
    }
  }

  lemma TakeCounts(s: State, r: RunId, v: VoucherCode, pc: Pc)
    requires r in s.runs && v in s.used && v in s.vouchers
    ensures var t := Take(s, r, v, pc);
            && t.used == Counting(s, v) && t.records == Recording(s, v, s.runs[r].email)
            && r in t.runs && t.runs[r].voucher == Some(v) && t.runs[r].pc == pc
  {
  }

  /** Taking the usage counts and records a voucher that this customer can use, and nothing else. */
  lemma TakingUsageCounts(s: State, r: RunId, inWindow: bool)
    requires At(s, r, Starting) && s.runs[r].flow.WithTransactions?
    ensures var t, run := Next(s, TakeUsage(r, inWindow, false)), s.runs[r];
            if run.voucher.Some? && Usable(s, run.voucher.value, inWindow)
               && !Exhausted(s, run.voucher.value, run.email)
            then t.used == Counting(s, run.voucher.value) && t.records == Recording(s, run.voucher.value, run.email)
            else t.used == s.used && t.records == s.records
  {
    var run := s.runs[r];
    assert Next(s, TakeUsage(r, inWindow, false)) == TakeVoucher(s, r, inWindow, false);
    if run.voucher.Some? && Usable(s, run.voucher.value, inWindow) && !Exhausted(s, run.voucher.value, run.email) {
      TakeCounts(s, r, run.voucher.value, Creating);
    }
  }

  /** The usage of the transaction flow goes on exactly when the request is not refused and its voucher, if it has one
      that can be used, was not used by this customer. */
  lemma TakingUsageGoesOn(s: State, r: RunId, inWindow: bool, refused: bool)
    requires At(s, r, Starting) && s.runs[r].flow.WithTransactions?
    ensures var t, run := Next(s, TakeUsage(r, inWindow, refused)), s.runs[r];
            && r in t.runs
            && (t.runs[r].pc == Creating <==>
                  && !refused
                  && match run.voucher
                     case None => true
                     case Some(v) => Usable(s, v, inWindow) ==> !Exhausted(s, v, run.email))
            && (!refused && t.runs[r].pc != Creating ==>
                  t == s.(runs := s.runs[r := run.(pc := Ended(AlreadyUsedByCustomer))]))
  {
    assert Next(s, TakeUsage(r, inWindow, refused)) == TakeVoucher(s, r, inWindow, refused);
  }

  /** When a request goes on after taking the usage, the second transaction makes an order, confirmed as it was asked
      to, with the voucher of the request, or with the one that the checkout has and can be used. */
  lemma TakenUsageMakesOrder(s: State, events: seq<Event>, r: RunId, inWindow: bool, confirmed: bool)
    requires Initial(s) && UsageTaken(StepsOf(s, events, r)) && r in Behave(s, events).runs
    requires !Behave(s, events).runs[r].pc.Ended?
    requires Behave(s, events).runs[r].token in Behave(s, events).checkouts
    ensures var was := Behave(s, events);
            var now, run := Next(was, CreateFromCheckout(r, inWindow, Success(confirmed))), was.runs[r];
            && run.flow.WithTransactions?
            && OrderMade(was, now, r, UsableVoucher(was, run, inWindow), confirmed, run.flow.deletesCheckout)
  {
    var was := Behave(s, events);
    RequestsTellTheirSteps(s, events, r);
    BehaviourKeeps(s, events, map[], 0);
    assert RunSane(was, was.runs[r]);
    CreationOfTaken(was, r, inWindow, confirmed);
  }

  /** The voucher of the request, or the one that its checkout has and can be used. */
  function UsableVoucher(s: State, run: Run, inWindow: bool): Option<VoucherCode>
    requires run.token in s.checkouts
  {
    var offered := s.checkouts[run.token];
    if run.voucher.Some? then run.voucher
    else if offered.Some? && Usable(s, offered.value, inWindow) then offered else None
  }

  lemma CreationOfTaken(s: State, r: RunId, inWindow: bool, confirmed: bool)
    requires At(s, r, Creating) && s.runs[r].flow.WithTransactions? && s.runs[r].token in s.checkouts
    ensures var run := s.runs[r];
            OrderMade(s, Next(s, CreateFromCheckout(r, inWindow, Success(confirmed))), r,
                      UsableVoucher(s, run, inWindow), confirmed, run.flow.deletesCheckout)
  {
    var run, voucher := s.runs[r], OrderVoucher(s, r, inWindow);
    assert voucher == UsableVoucher(s, run, inWindow);
    assert Next(s, CreateFromCheckout(r, inWindow, Success(confirmed)))
        == Create(s, r, voucher, confirmed, run.flow.deletesCheckout);
    CreateMakes(s, r, voucher, confirmed, run.flow.deletesCheckout);
  }

  // ----- Vouchers

  /** The event in which a request looks at the voucher of its checkout, and finds that it can be used. */
  predicate Offers(s: State, e: Event, r: RunId, v: VoucherCode) {
    && (e.Arrive? || e.FirstTransaction? || e.CreateFromCheckout?) && e.run == r && Usable(s, v, e.inWindow)
    && var token := if e.Arrive? then Some(e.token) else if r in s.runs then Some(s.runs[r].token) else None;
       token.Some? && token.value in s.checkouts && s.checkouts[token.value] == Some(v)
  }

  /** Some event of a run of the system is such an event. */
  predicate Offered(s: State, events: seq<Event>, r: RunId, v: VoucherCode) {
    events != []
    && (Offered(s, events[..|events| - 1], r, v)
        || Offers(Behave(s, events[..|events| - 1]), events[|events| - 1], r, v))
  }

  /** A request has the voucher it had, or one that was offered now. */
  predicate VoucherComes(s: State, e: Event, t: State, r: RunId) {
    r in t.runs && t.runs[r].voucher.Some? ==>
      (r in s.runs && t.runs[r].voucher == s.runs[r].voucher) || Offers(s, e, r, t.runs[r].voucher.value)
  }

  lemma FirstVoucherComes(s: State, r: RunId, inWindow: bool, fault: FirstFault)
    requires At(s, r, Starting)
    ensures VoucherComes(s, FirstTransaction(r, inWindow, fault), First(s, r, inWindow, fault), r)
  {
    var run, e, t := s.runs[r], FirstTransaction(r, inWindow, fault), First(s, r, inWindow, fault);
    if !fault.FirstDatabaseError? && run.token in s.checkouts && !fault.RefusedEarly? && s.checkouts[run.token].Some? {
      var v := s.checkouts[run.token].value;
      assert t == FirstWithVoucher(s, r, v, inWindow, fault);
      if Active(s, v, inWindow) {
        assert Offers(s, e, r, v);
      }
    }
  }

  lemma SameVoucherComes(s: State, e: Event, t: State, r: RunId)
    requires r in s.runs && (r in t.runs ==> t.runs[r].voucher == s.runs[r].voucher)
    ensures VoucherComes(s, e, t, r)
  {
  }

  lemma RunStepKeepsVoucher(s: State, t: State, r: RunId)
    requires RunStep(s, t, r) && r in s.runs && (s.runs[r].pc != Starting || s.runs[r].flow.WithTransactions?)
    ensures r in t.runs && t.runs[r].voucher == s.runs[r].voucher
  {
    if t != s && !Moves(s, t, r) {
      var voucher, confirmed, deletes :| OrderCreated(s, t, r, voucher, confirmed, deletes);
    }
  }

  lemma StepVoucherComes(s: State, e: Event)
    requires Sane(s) && Steps(s, e)
    ensures VoucherComes(s, e, Next(s, e), e.run)
  {
    if e.FirstTransaction? {
      FirstVoucherComes(s, e.run, e.inWindow, e.fault);
    } else if e.Crash? {
      SameVoucherComes(s, e, Next(s, e), e.run);
    } else {
      RunEventIsRunStep(s, e);
      RunStepKeepsVoucher(s, Next(s, e), e.run);
      SameVoucherComes(s, e, Next(s, e), e.run);
    }
  }

  lemma RunStepAddsNone(s: State, t: State, r: RunId)
    requires RunStep(s, t, r)
    ensures t.runs.Keys == s.runs.Keys
  {
    if Moves(s, t, r) {
      assert t.runs == s.runs[r := t.runs[r]];
    } else if t != s {
      var voucher, confirmed, deletes :| OrderCreated(s, t, r, voucher, confirmed, deletes);
      assert t.runs == s.runs[r := t.runs[r]];
    }
  }

  lemma ArrivalComes(s: State, e: Event)
    requires e.Arrive? && e.run !in s.runs
    ensures VoucherComes(s, e, Next(s, e), e.run)
    ensures Next(s, e).runs.Keys == s.runs.Keys + {e.run}
  {
  }

  lemma NobodyArrives(s: State, e: Event)
    requires !IsRunEvent(e) && (e.Arrive? ==> e.run in s.runs)
    ensures Next(s, e).runs == s.runs
  {
    if !e.Arrive? {
      OthersChange(s, e);
    }
  }

  lemma EventVoucherComes(s: State, e: Event, r: RunId)
    requires Sane(s)
    ensures VoucherComes(s, e, Next(s, e), r)
  {
    EventStands(s, e);
    if Steps(s, e) && e.run == r {
      StepVoucherComes(s, e);
    } else if r in s.runs {
      SameVoucherComes(s, e, Next(s, e), r);
    } else if IsRunEvent(e) {
      RunEventIsRunStep(s, e);
      RunStepAddsNone(s, Next(s, e), e.run);
    } else if e.Arrive? && e.run !in s.runs {
      ArrivalComes(s, e);
    } else {
      NobodyArrives(s, e);
    }
  }

  lemma {:induction false} RequestVoucherOffered(s: State, events: seq<Event>, r: RunId)
    requires Initial(s)
    ensures var t := Behave(s, events);
            r in t.runs && t.runs[r].voucher.Some? ==> Offered(s, events, r, t.runs[r].voucher.value)
  {
    if events != [] {
      var before := events[..|events| - 1];
      RequestVoucherOffered(s, before, r);
      BehaviourKeeps(s, before, map[], 0);
      EventVoucherComes(Behave(s, before), events[|events| - 1], r);
    }
  }

  /** The voucher of a new order is that of its request or one that was offered now. */
  predicate OrderVoucherComes(s: State, e: Event, t: State, o: OrderId, r: RunId) {
    MadeBy(t, o, r) && !MadeBy(s, o, r) && t.orders[o].voucher.Some? ==>
      (r in s.runs && t.orders[o].voucher == s.runs[r].voucher) || Offers(s, e, r, t.orders[o].voucher.value)
  }

  lemma CreatedVoucherComes(s: State, e: Event, r: RunId, voucher: Option<VoucherCode>, confirmed: bool, deletes: bool,
                            o: OrderId)
    requires Sane(s) && r in s.runs && MadeBy(Create(s, r, voucher, confirmed, deletes), o, r)
    requires voucher.Some? ==> voucher == s.runs[r].voucher || Offers(s, e, r, voucher.value)
    ensures OrderVoucherComes(s, e, Create(s, r, voucher, confirmed, deletes), o, r)
  {
  }

  lemma MakingVoucherComes(s: State, e: Event, o: OrderId, r: RunId)
    requires Sane(s) && MakesNow(s, e, s.nextOrder) && MadeBy(Next(s, e), o, r) && !MadeBy(s, o, r)
    ensures OrderVoucherComes(s, e, Next(s, e), o, r)
  {
    assert o == s.nextOrder && r == e.run;
    RunEventIsRunStep(s, e);
    var voucher, confirmed, deletes :| OrderCreated(s, Next(s, e), r, voucher, confirmed, deletes);
    MadeVoucherComes(s, e, r, voucher, confirmed, deletes);
    CreatedVoucherComes(s, e, r, voucher, confirmed, deletes, o);
  }

  lemma MadeVoucherComes(s: State, e: Event, r: RunId, voucher: Option<VoucherCode>, confirmed: bool, deletes: bool)
    requires Sane(s) && Steps(s, e) && e.run == r && OrderCreated(s, Next(s, e), r, voucher, confirmed, deletes)
    ensures voucher.Some? ==> voucher == s.runs[r].voucher || Offers(s, e, r, voucher.value)
  {
    if e.CreateFromCheckout? && e.result.Success? {
      var own := OrderVoucher(s, r, e.inWindow);
      assert Next(s, e) == Create(s, r, own, e.result.confirmed,
                                  s.runs[r].flow.WithTransactions? && s.runs[r].flow.deletesCheckout);
      assert Next(s, e).orders[s.nextOrder].voucher == own;
    }
  }

  /** In every interleaving of both flows, the voucher of an order that a request made was on its checkout and could be
      used, when the request arrived, in its first transaction or when it made the order. */
  lemma {:induction false} OrderVoucherOffered(s: State, events: seq<Event>, o: OrderId, r: RunId)
    requires Initial(s) && MadeBy(Behave(s, events), o, r) && Behave(s, events).orders[o].voucher.Some?
    ensures Offered(s, events, r, Behave(s, events).orders[o].voucher.value)
  {
    assert events != [];
    var before, e := events[..|events| - 1], events[|events| - 1];
    var was := Behave(s, before);
    BehaviourKeeps(s, before, map[], 0);
    EventMakes(was, e);
    if MadeBy(was, o, r) {
      SameVoucherLater(was, e, o, r);
      OrderVoucherOffered(s, before, o, r);
    } else {
      MakingVoucherComes(was, e, o, r);
      RequestVoucherOffered(s, before, r);
    }
  }

  lemma SameVoucherLater(s: State, e: Event, o: OrderId, r: RunId)
    requires Sane(s) && MadeBy(s, o, r) && MadeBy(Next(s, e), o, r)
    ensures Next(s, e).orders[o].voucher == s.orders[o].voucher
  {
    EventMakes(s, e);
  }
}
