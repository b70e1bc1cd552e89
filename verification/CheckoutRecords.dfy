/** Customer records in both flows, and the ways to end of the payment flow. */
module CheckoutRecords {
  import opened Wrappers
  import opened CheckoutProtocol
  import opened CheckoutAccounting

  // ----- Ways for a request to end

  /** Endings after which nothing of the voucher may stay taken. */
  predicate GivesBack(o: Outcome) {
    o.Rejected? || o.VoucherInactive? || o.TaxFailed? || o.PaymentFailed? || o.ActionRequired? || o.OutOfStock?
        || o.GiftCardRefused?
  }

  /** Endings that leave a slot taken. */
  predicate Strands(o: Outcome) {
    o.Returned? || o.FoundExisting? || o.AlreadyUsedByCustomer? || o.PaymentInactive? || o.RefundOngoing?
    || o.UnexpectedError? || o.DatabaseFailed?
  }

  /** What a request holds, said by where it stands. */
  predicate RunBooks(s: State, run: Run) {
    && (run.record ==> run.voucher.Some? && Once(s, run.voucher.value))
    && (run.pc == Starting ==> !run.record)
    && (run.pc.Ended? && run.pc.outcome.Completed? ==> !run.slot && !run.record)
    && (run.flow.WithPayment? ==> PaymentBooks(s, run))
  }

  predicate PaymentBooks(s: State, run: Run) {
    && (run.pc == Starting ==> run.voucher.None?)
    && (run.pc.Paying? || run.pc.Paid? || run.pc.ReleasingRecord? ==>
          run.voucher.Some? && Once(s, run.voucher.value) ==> run.record)
    && (run.pc.Ended? && GivesBack(run.pc.outcome) ==> !run.slot && !run.record)
    && (run.pc.Ended? && Strands(run.pc.outcome) && run.voucher.Some? ==>
          && (Counted(s, run.voucher.value) ==> run.slot)
          && (Once(s, run.voucher.value) && !run.pc.outcome.AlreadyUsedByCustomer? ==> run.record))
  }

  // ----- Customer records move with their holder

  /** The records of vouchers that are good once per customer. */
  function OnceRecords(s: State): set<Record> {
    set k | k in s.records && Once(s, k.0)
  }

  predicate RecordMoves(s: State, t: State, was: Run, now: Run) {
    if was.record == now.record then OnceRecords(t) == OnceRecords(s) && (now.record ==> was.voucher == now.voucher)
    else if now.record then
      now.voucher.Some? && (now.voucher.value, now.email) !in s.records && Once(s, now.voucher.value)
      && OnceRecords(t) == OnceRecords(s) + {(now.voucher.value, now.email)}
    else
      was.voucher.Some? && OnceRecords(t) == OnceRecords(s) - {(was.voucher.value, was.email)}
  }

  predicate Books(s: State, t: State, r: RunId) {
    OneRun(s, t, r) && !s.runs[r].pc.Ended? && SameRequest(s.runs[r], t.runs[r])
        && RecordMoves(s, t, s.runs[r], t.runs[r]) && RunBooks(s, t.runs[r])
  }

  predicate Fit(s: State, r: RunId) {
    r in s.runs && !s.runs[r].pc.Ended? && RunSane(s, s.runs[r]) && RunBooks(s, s.runs[r])
  }

  lemma EndBooks(s: State, r: RunId, outcome: Outcome)
    requires Fit(s, r) && !outcome.Completed?
    requires s.runs[r].flow.WithPayment? && GivesBack(outcome) ==> !s.runs[r].slot && !s.runs[r].record
    requires s.runs[r].flow.WithPayment? && Strands(outcome) && s.runs[r].voucher.Some? ==>
               && (Counted(s, s.runs[r].voucher.value) ==> s.runs[r].slot)
               && (Once(s, s.runs[r].voucher.value) && !outcome.AlreadyUsedByCustomer? ==> s.runs[r].record)
    ensures Books(s, EndRun(s, r, outcome), r)
  {
  }

  lemma TakeBooks(s: State, r: RunId, v: VoucherCode, pc: Pc)
    requires Fit(s, r) && At(s, r, Starting) && Active(s, v, true)
    requires Once(s, v) ==> (v, s.runs[r].email) !in s.records
    requires if s.runs[r].flow.WithPayment? then pc == Paying || pc == Ended(UnexpectedError)
             else pc == Creating && s.runs[r].voucher == Some(v)
    ensures Books(s, Take(s, r, v, pc), r)
  {
    var t, k := Take(s, r, v, pc), (v, s.runs[r].email);
    assert OnceRecords(t) == OnceRecords(s) + (if Once(s, v) then {k} else {});
  }

  lemma FirstVoucherBooks(s: State, r: RunId, v: VoucherCode, inWindow: bool, fault: FirstFault)
    requires Fit(s, r) && At(s, r, Starting) && s.runs[r].flow.WithPayment?
    ensures Books(s, FirstWithVoucher(s, r, v, inWindow, fault), r)
  {
    var run, t := s.runs[r], FirstWithVoucher(s, r, v, inWindow, fault);
    if Active(s, v, inWindow) && !(Once(s, v) && (v, run.email) in s.records) {
      if fault.TaxError? {
        assert OnceRecords(t) == OnceRecords(s);
      } else {
        TakeBooks(s, r, v, if fault.FirstUnexpected? then Ended(UnexpectedError) else Paying);
      }
    }
  }

  lemma {:induction false} FirstBooks(s: State, r: RunId, inWindow: bool, fault: FirstFault)
    requires Fit(s, r) && At(s, r, Starting) && s.runs[r].flow.WithPayment?
    ensures Books(s, First(s, r, inWindow, fault), r)
  {
    var run, t := s.runs[r], First(s, r, inWindow, fault);
    if fault.FirstDatabaseError? || run.token !in s.checkouts || fault.RefusedEarly? || s.checkouts[run.token].None? {
      AdvanceBooks(s, r, t.runs[r].pc);
    } else {
      FirstVoucherBooks(s, r, s.checkouts[run.token].value, inWindow, fault);
    }
  }

  lemma AdvanceBooks(s: State, r: RunId, pc: Pc)
    requires Fit(s, r) && RunBooks(s, s.runs[r].(pc := pc))
    ensures Books(s, Advance(s, r, pc), r)
  {
  }

  lemma {:induction false} PayBooks(s: State, r: RunId, payment: PaymentResult)
    requires Fit(s, r) && At(s, r, Paying)
    ensures Books(s, Pay(s, r, payment), r)
  {
    if payment.Declined? && s.runs[r].voucher.Some? {
      CounterBooks(s, r);
    } else {
      AdvanceBooks(s, r, Pay(s, r, payment).runs[r].pc);
    }
  }

  lemma CounterBooks(s: State, r: RunId)
    requires Fit(s, r) && At(s, r, Paying) && s.runs[r].voucher.Some?
    ensures Books(s, ReleaseCounter(s, r), r)
  {
    var v := s.runs[r].voucher.value;
    if !Limited(s, v) {
      AdvanceBooks(s, r, ReleasingRecord);
    } else if v !in s.used || s.used[v] == 0 {
      EndBooks(s, r, DatabaseFailed);
    } else {
      SameRecords(s, ReleaseCounter(s, r));
    }
  }

  lemma SameRecords(s: State, t: State)
    requires t.records == s.records && t.vouchers == s.vouchers
    ensures OnceRecords(t) == OnceRecords(s)
  {
  }

  lemma DropBooks(s: State, r: RunId)
    requires Fit(s, r) && At(s, r, ReleasingRecord)
    ensures Books(s, DropRecord(s, r), r)
  {
    var run, t := s.runs[r], DropRecord(s, r);
    if run.voucher.Some? {
      assert OnceRecords(t) == OnceRecords(s) - {(run.voucher.value, run.email)};
      assert !run.record ==> (run.voucher.value, run.email) !in OnceRecords(s);
    }
  }

  lemma GiveBackBooks(s: State, r: RunId, v: VoucherCode, outcome: Outcome)
    requires Fit(s, r) && s.runs[r].pc.Paid? && GivesBack(outcome) && s.runs[r].voucher == Some(v)
    requires !ReleaseFails(s, Some(v))
    ensures Books(s, GiveBack(s, r, v, outcome), r)
  {
    assert !s.runs[r].record ==> !Once(s, v);
    assert OnceRecords(GiveBack(s, r, v, outcome)) == OnceRecords(s) - {(v, s.runs[r].email)};
  }

  lemma {:induction false} ReleaseBooks(s: State, r: RunId, outcome: Outcome)
    requires Fit(s, r) && s.runs[r].pc.Paid? && GivesBack(outcome)
    ensures Books(s, Release(s, r, outcome), r)
  {
    match s.runs[r].voucher
    case None => EndBooks(s, r, outcome);
    case Some(v) =>
      if ReleaseFails(s, Some(v)) {
        EndBooks(s, r, DatabaseFailed);
      } else {
        GiveBackBooks(s, r, v, outcome);
      }
  }

  /** A run creates its order, with the voucher that it took if it took one. */
  predicate CreatedOwn(s: State, t: State, r: RunId, voucher: Option<VoucherCode>, confirmed: bool, deletes: bool) {
    OrderCreated(s, t, r, voucher, confirmed, deletes) && (s.runs[r].voucher.Some? ==> voucher == s.runs[r].voucher)
  }

  ghost predicate CreatesOwn(s: State, t: State, r: RunId) {
    exists voucher, confirmed, deletes :: CreatedOwn(s, t, r, voucher, confirmed, deletes)
  }

  lemma FoundBooks(s: State, r: RunId, order: OrderId, checkouts: map<Token, Option<VoucherCode>>)
    requires Fit(s, r) && s.runs[r].pc.Paid? && checkouts.Keys <= s.checkouts.Keys
    ensures Books(s, EndRun(s, r, FoundExisting(order)).(checkouts := checkouts), r)
  {
    EndBooks(s, r, FoundExisting(order));
    var t := EndRun(s, r, FoundExisting(order)).(checkouts := checkouts);
    SameRecords(s, t);
  }

  lemma SecondBooks(s: State, r: RunId, result: CreateResult)
    requires Fit(s, r) && s.runs[r].pc.Paid?
    ensures Books(s, Second(s, r, result), r) || CreatesOwn(s, Second(s, r, result), r)
  {
    var run := s.runs[r];
    var found := FindOrder(s, run.token);
    if result.CreateDatabaseError? {
      EndBooks(s, r, DatabaseFailed);
    } else if run.token !in s.checkouts {
      EndBooks(s, r, Returned(found));
    } else if run.pc.actionRequired {
      ReleaseBooks(s, r, ActionRequired);
    } else if result.RefundInProgress? {
      EndBooks(s, r, RefundOngoing);
    } else if found.Some? {
      FoundBooks(s, r, found.value, s.checkouts - {run.token});
    } else {
      match result
      case Success(confirmed) => assert CreatedOwn(s, Second(s, r, result), r, run.voucher, confirmed, true);
      case InsufficientStock => ReleaseBooks(s, r, OutOfStock);
      case GiftCardNotApplicable => ReleaseBooks(s, r, GiftCardRefused);
      case _ => EndBooks(s, r, UnexpectedError);
    }
  }

  lemma TakeVoucherBooks(s: State, r: RunId, inWindow: bool, refused: bool)
    requires Fit(s, r) && At(s, r, Starting) && s.runs[r].flow.WithTransactions?
    ensures Books(s, TakeVoucher(s, r, inWindow, refused), r)
  {
    var run := s.runs[r];
    if refused {
      EndBooks(s, r, Rejected);
    } else if run.voucher.None? || !Active(s, run.voucher.value, inWindow) {
      AdvanceBooks(s, r, Creating);
    } else if Once(s, run.voucher.value) && (run.voucher.value, run.email) in s.records {
      EndBooks(s, r, AlreadyUsedByCustomer);
    } else {
      TakeBooks(s, r, run.voucher.value, Creating);
    }
  }

  lemma TransactionBooks(s: State, r: RunId, inWindow: bool, result: CreateResult)
    requires Fit(s, r) && At(s, r, Creating)
    ensures var t := CreateWithTransactions(s, r, inWindow, result); Books(s, t, r) || CreatesOwn(s, t, r)
  {
    var run, t := s.runs[r], CreateWithTransactions(s, r, inWindow, result);
    if result.CreateDatabaseError? {
      EndBooks(s, r, DatabaseFailed);
    } else if run.token !in s.checkouts {
      EndBooks(s, r, Returned(FindOrder(s, run.token)));
    } else if result.Success? {
      assert CreatedOwn(s, t, r, OrderVoucher(s, r, inWindow), result.confirmed, run.flow.deletesCheckout);
    } else {
      EndBooks(s, r, t.runs[r].pc.outcome);
    }
  }

  /** What a step of one request can be. */
  ghost predicate BookStep(s: State, t: State, r: RunId) {
    t == s || Books(s, t, r) || CreatesOwn(s, t, r)
  }

  lemma {:induction false} RunEventIsBookStep(s: State, e: Event)
    requires IsRunEvent(e) && (e.run in s.runs && !s.runs[e.run].pc.Ended? ==> Fit(s, e.run))
    ensures BookStep(s, Next(s, e), e.run)
  {
    if e.run in s.runs && !s.runs[e.run].pc.Ended? {
      match e
      case FirstTransaction(r, inWindow, fault) =>
        if At(s, r, Starting) && s.runs[r].flow.WithPayment? { FirstBooks(s, r, inWindow, fault); }
      case ProcessPayment(r, payment) =>
        if At(s, r, Paying) { PayBooks(s, r, payment); }
      case ReleaseRecord(r) =>
        if At(s, r, ReleasingRecord) { DropBooks(s, r); }
      case SecondTransaction(r, result) =>
        if s.runs[r].pc.Paid? { SecondBooks(s, r, result); }
      case TakeUsage(r, inWindow, refused) =>
        if At(s, r, Starting) && s.runs[r].flow.WithTransactions? { TakeVoucherBooks(s, r, inWindow, refused); }
      case CreateFromCheckout(r, inWindow, result) =>
        if At(s, r, Creating) { TransactionBooks(s, r, inWindow, result); }
      case Crash(r) => EndBooks(s, r, Crashed);
    }
  }

  // ----- Who holds a customer record

  datatype Holder = Request(run: RunId) | LiveOrder(order: OrderId)

  /** `unrecorded` are the orders whose requests took no record. */
  predicate Holds(s: State, unrecorded: set<OrderId>, h: Holder, k: Record) {
    match h
    case Request(r) => r in s.runs && s.runs[r].record && s.runs[r].voucher == Some(k.0) && s.runs[r].email == k.1
    case LiveOrder(o) => o in s.orders && o !in unrecorded && Carries(s.orders[o], k.0) && s.orders[o].email == k.1
  }

  /** An order that this step makes with a once-per-customer voucher although its request took no record. */
  predicate MadeUnrecorded(s: State, t: State, o: OrderId) {
    && o in t.orders && o !in s.orders
    && t.orders[o].voucher.Some? && Once(s, t.orders[o].voucher.value)
    && t.orders[o].creator.Some? && t.orders[o].creator.value in s.runs && !s.runs[t.orders[o].creator.value].record
  }

  function NewUnrecorded(s: State, t: State): set<OrderId> {
    set o | o in t.orders && MadeUnrecorded(s, t, o)
  }

  /** The orders that were made in this way over a run of the system. */
  function Unrecorded(s: State, events: seq<Event>): set<OrderId> {
    if events == [] then {}
    else
      var before := events[..|events| - 1];
      Unrecorded(s, before) + NewUnrecorded(Behave(s, before), Behave(s, events))
  }

  /** Each record of a once-per-customer voucher, other than the prior ones, which stay, has exactly one holder,
      and every holder has its record. */
  ghost predicate RecordsHeld(s: State, unrecorded: set<OrderId>, prior: set<Record>) {
    && (forall k :: k in prior && Once(s, k.0) ==> k in s.records)
    && (forall h, k :: Holds(s, unrecorded, h, k) && Once(s, k.0) ==> k in s.records && k !in prior)
    && (forall h, h', k :: Holds(s, unrecorded, h, k) && Holds(s, unrecorded, h', k) && Once(s, k.0) ==> h == h')
    && (forall k :: k in s.records && Once(s, k.0) && k !in prior ==> exists h :: Holds(s, unrecorded, h, k))
  }

  ghost predicate AllBooked(s: State, unrecorded: set<OrderId>) {
    && (forall o :: o in unrecorded ==> o < s.nextOrder)
    && (forall r :: r in s.runs ==> RunBooks(s, s.runs[r]))
    && (forall o :: o in s.orders && s.orders[o].creator.Some? ==>
          At(s, s.orders[o].creator.value, Ended(Completed(o))))
  }

  lemma BooksKeepRecords(s: State, u: set<OrderId>, t: State, r: RunId, prior: set<Record>)
    requires AllBooked(s, u) && RecordsHeld(s, u, prior) && Books(s, t, r)
    ensures RecordsHeld(t, u, prior)
  {
    var was, now := s.runs[r], t.runs[r];
    forall h, k: Record | Once(s, k.0)
      ensures Holds(t, u, h, k) <==>
          if h == Request(r) then now.record && now.voucher == Some(k.0) && now.email == k.1 else Holds(s, u, h, k)
    {
    }
    forall k | k in t.records && Once(t, k.0) && k !in prior ensures exists h :: Holds(t, u, h, k) {
      assert k in OnceRecords(t);
      if k in OnceRecords(s) {
        var h :| Holds(s, u, h, k);
        assert h != Request(r) || now.record ==> Holds(t, u, h, k);
      } else {
        assert Holds(t, u, Request(r), k);
      }
    }
    forall k | k in prior && Once(t, k.0) ensures k in t.records {
      assert k in OnceRecords(s);
      assert was.record && was.voucher.Some? && k == (was.voucher.value, was.email) ==> Holds(s, u, Request(r), k);
      assert k in OnceRecords(t);
    }
    forall h, k | Holds(t, u, h, k) && Once(t, k.0) ensures k in t.records && k !in prior {
      RecordStays(s, u, t, r, h, k, prior);
    }
    forall h, h', k | Holds(t, u, h, k) && Holds(t, u, h', k) && Once(t, k.0) ensures h == h' {
      if was.record == now.record || !now.record {
        assert Holds(s, u, h, k) && Holds(s, u, h', k);
      } else {
        assert Holds(s, u, h, k) || h == Request(r);
        assert Holds(s, u, h', k) || h' == Request(r);
      }
    }
  }

  lemma RecordStays(s: State, u: set<OrderId>, t: State, r: RunId, h: Holder, k: Record, prior: set<Record>)
    requires AllBooked(s, u) && RecordsHeld(s, u, prior) && Books(s, t, r) && Holds(t, u, h, k) && Once(t, k.0)
    ensures k in t.records && k !in prior
  {
    var was, now := s.runs[r], t.runs[r];
    if h == Request(r) && !was.record {
      assert k in OnceRecords(t);
    } else {
      assert Holds(s, u, h, k);
      assert k in OnceRecords(s);
      if was.record && !now.record {
        assert k == (was.voucher.value, was.email) ==> Holds(s, u, Request(r), k);
      }
      assert k in OnceRecords(t);
    }
  }

  lemma NewOfCreated(s: State, t: State, r: RunId, voucher: Option<VoucherCode>, confirmed: bool, deletes: bool)
    requires Sane(s) && CreatedOwn(s, t, r, voucher, confirmed, deletes)
    ensures NewUnrecorded(s, t)
         == if voucher.Some? && Once(s, voucher.value) && !s.runs[r].record then {s.nextOrder} else {}
  {
    assert s.nextOrder !in s.orders;
    assert t.orders == s.orders[s.nextOrder := t.orders[s.nextOrder]];
    assert t.orders[s.nextOrder].voucher == voucher && t.orders[s.nextOrder].creator == Some(r);
  }

  /** The new order holds what its request held. */
  lemma CreateMovesHolder(s: State, u: set<OrderId>, t: State, r: RunId, voucher: Option<VoucherCode>, confirmed: bool,
                          deletes: bool, h: Holder, k: Record)
    requires Sane(s) && AllBooked(s, u) && Once(s, k.0) && CreatedOwn(s, t, r, voucher, confirmed, deletes)
    ensures Holds(t, u + NewUnrecorded(s, t), h, k) <==>
      if h == Request(r) then false
      else if h == LiveOrder(s.nextOrder) then Holds(s, u, Request(r), k) else Holds(s, u, h, k)
  {
    assert RunBooks(s, s.runs[r]);
    NewOfCreated(s, t, r, voucher, confirmed, deletes);
  }

  lemma CreateKeepsRecords(s: State, u: set<OrderId>, t: State, r: RunId, voucher: Option<VoucherCode>, confirmed: bool,
                           deletes: bool, prior: set<Record>)
    requires Sane(s) && AllBooked(s, u) && RecordsHeld(s, u, prior)
    requires CreatedOwn(s, t, r, voucher, confirmed, deletes)
    ensures RecordsHeld(t, u + NewUnrecorded(s, t), prior)
  {
    var made, v := LiveOrder(s.nextOrder), u + NewUnrecorded(s, t);
    forall h, k: Record | Once(s, k.0)
      ensures Holds(t, v, h, k) <==>
        if h == Request(r) then false else if h == made then Holds(s, u, Request(r), k) else Holds(s, u, h, k)
    {
      CreateMovesHolder(s, u, t, r, voucher, confirmed, deletes, h, k);
    }
    MovedHolderKeepsRecords(s, u, t, v, r, made, prior);
  }

  lemma MovedHolderKeepsRecords(s: State, u: set<OrderId>, t: State, v: set<OrderId>, r: RunId, made: Holder,
                                prior: set<Record>)
    requires RecordsHeld(s, u, prior) && t.vouchers == s.vouchers && t.records == s.records && made != Request(r)
    requires forall k :: !Holds(s, u, made, k)
    requires forall h, k: Record :: Once(s, k.0) ==>
      (Holds(t, v, h, k) <==>
        if h == Request(r) then false else if h == made then Holds(s, u, Request(r), k) else Holds(s, u, h, k))
    ensures RecordsHeld(t, v, prior)
  {
    forall k | k in t.records && Once(t, k.0) && k !in prior ensures exists h :: Holds(t, v, h, k) {
      var h :| Holds(s, u, h, k);
      assert Holds(t, v, if h == Request(r) then made else h, k);
    }
  }

  // ----- Expiry

  /** An order that carries a record's voucher for its customer. */
  predicate IsFor(order: Order, k: Record) {
    order.voucher == Some(k.0) && order.email == k.1
  }

  /** The batch has an order that never took the record it gives back, and none that did. */
  ghost predicate FreesForeign(s: State, u: set<OrderId>, batch: set<OrderId>, k: Record) {
    && k in s.records && Once(s, k.0)
    && (exists o :: o in batch * u && o in s.orders && IsFor(s.orders[o], k))
    && (forall o :: o in batch - u && o in s.orders ==> !IsFor(s.orders[o], k))
  }

  /** An expiry that removes the record of another order, request or time. */
  ghost predicate Strays(s: State, u: set<OrderId>, e: Event) {
    && e.ExpireOrders? && HasStatus(s, e.batch, Unconfirmed) && !Overdraws(s, e.batch)
    && exists k :: FreesForeign(s, u, e.batch, k)
  }

  lemma ExpiredHolders(s: State, u: set<OrderId>, batch: set<OrderId>, h: Holder, k: Record)
    requires HasStatus(s, batch, Unconfirmed) && !Overdraws(s, batch)
    ensures Holds(Expire(s, batch), u, h, k) <==> Holds(s, u, h, k) && !(h.LiveOrder? && h.order in batch)
  {
  }

  lemma ReleasedIsCarried(s: State, u: set<OrderId>, batch: set<OrderId>, k: Record)
    requires HasStatus(s, batch, Unconfirmed) && k in s.records && Once(s, k.0) && !FreesForeign(s, u, batch, k)
    ensures ReleasedByBatch(s.orders, batch, k) ==> exists o :: o in batch && Holds(s, u, LiveOrder(o), k)
    ensures forall o :: o in batch && Holds(s, u, LiveOrder(o), k) ==> ReleasedByBatch(s.orders, batch, k)
  {
    if ReleasedByBatch(s.orders, batch, k) {
      var o :| o in batch && o in s.orders && s.orders[o].voucher == Some(k.0) && s.orders[o].email == k.1;
      if o in u {
        assert o in batch * u && IsFor(s.orders[o], k);
        var p :| p in batch - u && p in s.orders && IsFor(s.orders[p], k);
        assert Holds(s, u, LiveOrder(p), k);
      } else {
        assert Holds(s, u, LiveOrder(o), k);
      }
    }
  }

  /** A record after the expiry, and whether it has a holder. */
  lemma ExpiryOfRecord(s: State, u: set<OrderId>, batch: set<OrderId>, prior: set<Record>, k: Record)
    requires RecordsHeld(s, u, prior) && HasStatus(s, batch, Unconfirmed) && !Overdraws(s, batch) && Once(s, k.0)
    requires !FreesForeign(s, u, batch, k)
    ensures var t := Expire(s, batch);
            && (k in prior ==> k in t.records)
            && (forall h :: Holds(t, u, h, k) ==> k in t.records)
            && (k in t.records && k !in prior ==> exists h :: Holds(t, u, h, k))
  {
    var t := Expire(s, batch);
    if k in s.records {
      ReleasedIsCarried(s, u, batch, k);
      forall h | Holds(t, u, h, k) ensures k in t.records {
        ExpiredHolders(s, u, batch, h, k);
      }
      if k in t.records && k !in prior {
        var h :| Holds(s, u, h, k);
        ExpiredHolders(s, u, batch, h, k);
      }
    } else {
      forall h ensures !Holds(t, u, h, k) {
        ExpiredHolders(s, u, batch, h, k);
      }
    }
  }

  lemma ExpireKeepsRecords(s: State, u: set<OrderId>, batch: set<OrderId>, prior: set<Record>)
    requires RecordsHeld(s, u, prior) && HasStatus(s, batch, Unconfirmed) && !Overdraws(s, batch)
    requires forall k :: !FreesForeign(s, u, batch, k)
    ensures RecordsHeld(Expire(s, batch), u, prior)
  {
    var t := Expire(s, batch);
    forall k: Record | Once(s, k.0)
      ensures k in prior ==> k in t.records
      ensures forall h :: Holds(t, u, h, k) ==> k in t.records && Holds(s, u, h, k)
      ensures k in t.records && k !in prior ==> exists h :: Holds(t, u, h, k)
    {
      ExpiryOfRecord(s, u, batch, prior, k);
      forall h | Holds(t, u, h, k) ensures Holds(s, u, h, k) {
        ExpiredHolders(s, u, batch, h, k);
      }
    }
  }

  lemma StrayingLosesRecord(s: State, u: set<OrderId>, batch: set<OrderId>, prior: set<Record>, k: Record)
    requires RecordsHeld(s, u, prior) && HasStatus(s, batch, Unconfirmed) && !Overdraws(s, batch)
    requires FreesForeign(s, u, batch, k)
    ensures !RecordsHeld(Expire(s, batch), u, prior)
  {
    var t := Expire(s, batch);
    var o :| o in batch * u && o in s.orders && IsFor(s.orders[o], k);
    assert ReleasedByBatch(s.orders, batch, k);
    assert k !in t.records;
    if k !in prior {
      var h :| Holds(s, u, h, k);
      ExpiredHolders(s, u, batch, h, k);
      assert Holds(t, u, h, k);
    }
  }

  lemma DeleteKeepsRecords(s: State, u: set<OrderId>, batch: set<OrderId>, prior: set<Record>)
    requires RecordsHeld(s, u, prior) && HasStatus(s, batch, Expired)
    ensures RecordsHeld(s.(orders := s.orders - batch), u, prior)
  {
    var t := s.(orders := s.orders - batch);
    forall h, k: Record ensures Holds(t, u, h, k) <==> Holds(s, u, h, k) {
    }
    forall k | k in t.records && Once(t, k.0) && k !in prior ensures exists h :: Holds(t, u, h, k) {
      var h :| Holds(s, u, h, k);
      assert Holds(t, u, h, k);
    }
  }

  lemma SameHoldersKeepRecords(s: State, u: set<OrderId>, t: State, prior: set<Record>)
    requires RecordsHeld(s, u, prior) && t.vouchers == s.vouchers && t.records == s.records && t.orders == s.orders
    requires OnlyArrives(s, t)
    ensures RecordsHeld(t, u, prior)
  {
    forall h, k: Record ensures Holds(t, u, h, k) <==> Holds(s, u, h, k) {
    }
    forall k | k in t.records && Once(t, k.0) && k !in prior ensures exists h :: Holds(t, u, h, k) {
      var h :| Holds(s, u, h, k);
      assert Holds(t, u, h, k);
    }
  }

  lemma NoneMade(s: State, t: State)
    requires forall o :: o in t.orders ==> o in s.orders
    ensures NewUnrecorded(s, t) == {}
  {
  }

  /** What the step adds to the unrecorded orders. */
  function After(s: State, u: set<OrderId>, e: Event): set<OrderId> {
    u + NewUnrecorded(s, Next(s, e))
  }

  lemma {:induction false} StepStaysBooked(s: State, u: set<OrderId>, e: Event)
    requires Sane(s) && AllBooked(s, u)
    ensures AllBooked(Next(s, e), After(s, u, e))
  {
    if IsRunEvent(e) {
      FitRun(s, u, e.run);
      RunEventIsBookStep(s, e);
      BookStepStaysBooked(s, u, Next(s, e), e.run);
    } else {
      OthersChange(s, e);
      OthersOnlyArrive(s, e);
      NoneMade(s, Next(s, e));
      OtherStepStaysBooked(s, u, Next(s, e));
    }
  }

  /** The requests that are there go on, and a new one has nothing. */
  predicate OnlyArrives(s: State, t: State) {
    && (forall r :: r in s.runs ==> r in t.runs && t.runs[r] == s.runs[r])
    && (forall r :: r in t.runs && r !in s.runs ==>
          t.runs[r].pc == Starting && !t.runs[r].record && (t.runs[r].flow.WithPayment? ==> t.runs[r].voucher.None?))
  }

  lemma OthersOnlyArrive(s: State, e: Event)
    requires !IsRunEvent(e)
    ensures OnlyArrives(s, Next(s, e))
  {
    OthersChange(s, e);
  }

  lemma OtherStepStaysBooked(s: State, u: set<OrderId>, t: State)
    requires AllBooked(s, u) && SharedChange(s, t) && OnlyArrives(s, t)
    ensures AllBooked(t, u)
  {
    forall r | r in t.runs ensures RunBooks(t, t.runs[r]) {
      assert r in s.runs ==> RunBooks(s, s.runs[r]);
    }
    forall o | o in t.orders && t.orders[o].creator.Some?
        ensures At(t, t.orders[o].creator.value, Ended(Completed(o))) {
      assert At(s, s.orders[o].creator.value, Ended(Completed(o)));
    }
  }

  lemma FitRun(s: State, u: set<OrderId>, r: RunId)
    requires Sane(s) && AllBooked(s, u)
    ensures r in s.runs && !s.runs[r].pc.Ended? ==> Fit(s, r)
  {
    assert r in s.runs ==> RunSane(s, s.runs[r]) && RunBooks(s, s.runs[r]);
  }

  lemma BooksStayBooked(s: State, u: set<OrderId>, t: State, r: RunId)
    requires AllBooked(s, u) && Books(s, t, r)
    ensures AllBooked(t, u)
  {
    forall x | x in t.runs ensures RunBooks(t, t.runs[x]) {
      assert RunBooks(s, s.runs[x]);
    }
    forall o | o in t.orders && t.orders[o].creator.Some?
        ensures At(t, t.orders[o].creator.value, Ended(Completed(o))) {
      assert At(s, s.orders[o].creator.value, Ended(Completed(o)));
    }
  }

  lemma CreateStaysBooked(s: State, u: set<OrderId>, t: State, r: RunId)
    requires Sane(s) && AllBooked(s, u) && CreatesOwn(s, t, r)
    ensures AllBooked(t, u + NewUnrecorded(s, t))
  {
    var voucher, confirmed, deletes :| CreatedOwn(s, t, r, voucher, confirmed, deletes);
    NewOfCreated(s, t, r, voucher, confirmed, deletes);
    CreatedRunsBooked(s, t, r, voucher, confirmed, deletes);
    CreatedOrdersBooked(s, t, r, voucher, confirmed, deletes);
  }

  lemma CreatedRunsBooked(s: State, t: State, r: RunId, voucher: Option<VoucherCode>, confirmed: bool, deletes: bool)
    requires OrderCreated(s, t, r, voucher, confirmed, deletes) && forall x :: x in s.runs ==> RunBooks(s, s.runs[x])
    ensures forall x :: x in t.runs ==> RunBooks(t, t.runs[x])
  {
    forall x | x in t.runs ensures RunBooks(t, t.runs[x]) {
      assert x in s.runs && RunBooks(s, s.runs[x]);
    }
  }

  lemma CreatedOrdersBooked(s: State, t: State, r: RunId, voucher: Option<VoucherCode>, confirmed: bool, deletes: bool)
    requires Sane(s) && OrderCreated(s, t, r, voucher, confirmed, deletes)
    requires forall o :: o in s.orders && s.orders[o].creator.Some? ==>
               At(s, s.orders[o].creator.value, Ended(Completed(o)))
    ensures forall o :: o in t.orders && t.orders[o].creator.Some? ==>
              At(t, t.orders[o].creator.value, Ended(Completed(o)))
  {
    forall o | o in t.orders && t.orders[o].creator.Some?
        ensures At(t, t.orders[o].creator.value, Ended(Completed(o))) {
      assert o in s.orders ==> At(s, s.orders[o].creator.value, Ended(Completed(o)));
    }
  }

  lemma BookStepStaysBooked(s: State, u: set<OrderId>, t: State, r: RunId)
    requires Sane(s) && AllBooked(s, u) && BookStep(s, t, r)
    ensures AllBooked(t, u + NewUnrecorded(s, t))
  {
    if t == s {
      NoneMade(s, t);
    } else if Books(s, t, r) {
      NoneMade(s, t);
      BooksStayBooked(s, u, t, r);
    } else {
      CreateStaysBooked(s, u, t, r);
    }
  }

  lemma RunStepKeepsRecords(s: State, u: set<OrderId>, t: State, r: RunId, prior: set<Record>)
    requires Sane(s) && AllBooked(s, u) && RecordsHeld(s, u, prior) && BookStep(s, t, r)
    ensures RecordsHeld(t, u + NewUnrecorded(s, t), prior)
  {
    if t == s {
      NoneMade(s, t);
      assert u + NewUnrecorded(s, t) == u;
    } else if Books(s, t, r) {
      NoneMade(s, t);
      assert u + NewUnrecorded(s, t) == u;
      BooksKeepRecords(s, u, t, r, prior);
    } else {
      var voucher, confirmed, deletes :| CreatedOwn(s, t, r, voucher, confirmed, deletes);
      CreateKeepsRecords(s, u, t, r, voucher, confirmed, deletes, prior);
    }
  }

  lemma ExpiryStepKeepsRecords(s: State, u: set<OrderId>, e: Event, prior: set<Record>)
    requires RecordsHeld(s, u, prior) && e.ExpireOrders?
    ensures RecordsHeld(Next(s, e), u, prior) <==> !Strays(s, u, e)
  {
    if HasStatus(s, e.batch, Unconfirmed) && !Overdraws(s, e.batch) {
      if Strays(s, u, e) {
        var k :| FreesForeign(s, u, e.batch, k);
        StrayingLosesRecord(s, u, e.batch, prior, k);
      } else {
        ExpireKeepsRecords(s, u, e.batch, prior);
      }
    }
  }

  lemma OtherStepKeepsRecords(s: State, u: set<OrderId>, e: Event, prior: set<Record>)
    requires Sane(s) && RecordsHeld(s, u, prior) && !IsRunEvent(e)
    ensures RecordsHeld(Next(s, e), u, prior) <==> !Strays(s, u, e)
  {
    if e.ExpireOrders? {
      ExpiryStepKeepsRecords(s, u, e, prior);
    } else if e.DeleteExpired? {
      if HasStatus(s, e.batch, Expired) {
        DeleteKeepsRecords(s, u, e.batch, prior);
      }
    } else {
      OthersChange(s, e);
      OthersOnlyArrive(s, e);
      SameHoldersKeepRecords(s, u, Next(s, e), prior);
    }
  }

  /** A step of either flow, of expiry or of deletion keeps one holder for each customer record exactly when it is not
      the expiry of an order that gives back a record it never took. */
  lemma StepKeepsRecords(s: State, u: set<OrderId>, e: Event, prior: set<Record>)
    requires Sane(s) && AllBooked(s, u) && RecordsHeld(s, u, prior)
    ensures RecordsHeld(Next(s, e), After(s, u, e), prior) <==> !Strays(s, u, e)
  {
    if IsRunEvent(e) {
      FitRun(s, u, e.run);
      RunEventIsBookStep(s, e);
      RunStepKeepsRecords(s, u, Next(s, e), e.run, prior);
    } else {
      OthersChange(s, e);
      NoneMade(s, Next(s, e));
      assert After(s, u, e) == u;
      OtherStepKeepsRecords(s, u, e, prior);
    }
  }

  // ----- Main results

  lemma {:induction false} BehaviourStaysBooked(s: State, events: seq<Event>)
    requires Initial(s)
    ensures var t := Behave(s, events); Sane(t) && AllBooked(t, Unrecorded(s, events)) && t.vouchers == s.vouchers
  {
    BehaviourKeeps(s, events, map[], 0);
    if events != [] {
      var before, e := events[..|events| - 1], events[|events| - 1];
      BehaviourStaysBooked(s, before);
      StepStaysBooked(Behave(s, before), Unrecorded(s, before), e);
    }
  }

  /** No event of the run is such an expiry. */
  ghost predicate NoneStrays(s: State, events: seq<Event>) {
    events != [] ==>
      var before := events[..|events| - 1];
      NoneStrays(s, before) && !Strays(Behave(s, before), Unrecorded(s, before), events[|events| - 1])
  }

  /** The records have their holders after every event. */
  ghost predicate HeldThroughout(s: State, events: seq<Event>, prior: set<Record>) {
    && RecordsHeld(Behave(s, events), Unrecorded(s, events), prior)
    && (events != [] ==> HeldThroughout(s, events[..|events| - 1], prior))
  }

  /** Over every interleaving of both flows the records have their holders throughout exactly when no order expires
      that gives back a record it never took. */
  lemma {:induction false} HeldUnlessStraying(s: State, events: seq<Event>, prior: set<Record>)
    requires Initial(s) && RecordsHeld(s, {}, prior)
    ensures HeldThroughout(s, events, prior) <==> NoneStrays(s, events)
  {
    if events != [] {
      var before, e := events[..|events| - 1], events[|events| - 1];
      HeldUnlessStraying(s, before, prior);
      BehaviourStaysBooked(s, before);
      if NoneStrays(s, before) {
        StepKeepsRecords(Behave(s, before), Unrecorded(s, before), e, prior);
      }
    }
  }

  /** A record is new exactly when it has a holder, and it has no second one. */
  ghost predicate OneHolder(s: State, unrecorded: set<OrderId>, prior: set<Record>, k: Record) {
    && (k in s.records && k !in prior <==> exists h :: Holds(s, unrecorded, h, k))
    && (forall h, h' :: Holds(s, unrecorded, h, k) && Holds(s, unrecorded, h', k) ==> h == h')
  }

  lemma HeldByOne(s: State, unrecorded: set<OrderId>, prior: set<Record>, k: Record)
    requires RecordsHeld(s, unrecorded, prior) && Once(s, k.0)
    ensures OneHolder(s, unrecorded, prior, k)
  {
  }

  /** In every interleaving of both flows in which no order expires that gives back a record it never took, each new
      record of a once-per-customer voucher has exactly one holder: a request or a live order that took it. */
  lemma {:induction false} OneTakerPerRecord(s: State, events: seq<Event>, prior: set<Record>, k: Record)
    requires Initial(s) && RecordsHeld(s, {}, prior) && NoneStrays(s, events) && Once(s, k.0)
    ensures OneHolder(Behave(s, events), Unrecorded(s, events), prior, k)
  {
    HeldUnlessStraying(s, events, prior);
    BehaviourKeeps(s, events, map[], 0);
    HeldByOne(Behave(s, events), Unrecorded(s, events), prior, k);
  }

  /** Two live orders that carry a voucher for the same customer. */
  predicate SameCustomer(s: State, v: VoucherCode, o: OrderId, o': OrderId) {
    o in s.orders && o' in s.orders && Carries(s.orders[o], v) && Carries(s.orders[o'], v)
    && s.orders[o].email == s.orders[o'].email
  }

  lemma PaymentStepIsRecorded(s: State, u: set<OrderId>, e: Event)
    requires Sane(s) && AllBooked(s, u) && PaymentOnly(s)
    ensures NewUnrecorded(s, Next(s, e)) == {}
  {
    if IsRunEvent(e) {
      FitRun(s, u, e.run);
      RunEventIsBookStep(s, e);
      PaymentRunIsRecorded(s, Next(s, e), e.run);
    } else {
      OthersChange(s, e);
      NoneMade(s, Next(s, e));
    }
  }

  lemma PaymentRunIsRecorded(s: State, t: State, r: RunId)
    requires Sane(s) && PaymentOnly(s) && BookStep(s, t, r) && (r in s.runs ==> RunBooks(s, s.runs[r]))
    ensures NewUnrecorded(s, t) == {}
  {
    if t == s || Books(s, t, r) {
      NoneMade(s, t);
    } else {
      var voucher, confirmed, deletes :| CreatedOwn(s, t, r, voucher, confirmed, deletes);
      NewOfCreated(s, t, r, voucher, confirmed, deletes);
    }
  }

  lemma {:induction false} PaymentFlowIsRecorded(s: State, events: seq<Event>)
    requires Initial(s) && PaymentArrivals(events)
    ensures Unrecorded(s, events) == {} && NoneStrays(s, events)
  {
    if events != [] {
      var before, e := events[..|events| - 1], events[|events| - 1];
      PaymentFlowIsRecorded(s, before);
      BehaviourStaysBooked(s, before);
      BehaviourStaysPaymentOnly(s, before);
      PaymentStepIsRecorded(Behave(s, before), {}, e);
      assert Behave(s, events) == Next(Behave(s, before), e);
    }
  }

  /** In every interleaving of payment-flow requests no order strays: each record of a once-per-customer voucher that
      was not there before has exactly one holder, and no two live orders carry such a voucher for one customer. */
  lemma {:induction false} OneHolderPerRecord(s: State, events: seq<Event>, prior: set<Record>, k: Record)
    requires Initial(s) && RecordsHeld(s, {}, prior) && PaymentArrivals(events) && Once(s, k.0)
    ensures var t := Behave(s, events);
            && OneHolder(t, {}, prior, k)
            && (forall o, o' :: SameCustomer(t, k.0, o, o') ==> o == o')
  {
    PaymentFlowIsRecorded(s, events);
    HeldUnlessStraying(s, events, prior);
    BehaviourStaysBooked(s, events);
    var t := Behave(s, events);
    HeldByOne(t, {}, prior, k);
    forall o, o' | SameCustomer(t, k.0, o, o') ensures o == o' {
      var k' := (k.0, t.orders[o].email);
      assert Holds(t, {}, LiveOrder(o), k') && Holds(t, {}, LiveOrder(o'), k');
    }
  }

  // ----- When a record is taken

  /** A request that has a record now and had none before. */
  predicate TakesRecord(s: State, t: State, r: RunId) {
    r in s.runs && r in t.runs && !s.runs[r].record && t.runs[r].record
  }

  /** Its record is that of its voucher and customer, and was not there before. */
  predicate IsNewRecord(s: State, t: State, run: Run) {
    && run.voucher.Some? && Once(s, run.voucher.value)
    && (run.voucher.value, run.email) !in s.records && (run.voucher.value, run.email) in t.records
  }

  lemma BookStepTakesNew(s: State, t: State, r: RunId)
    requires BookStep(s, t, r) && TakesRecord(s, t, r)
    ensures IsNewRecord(s, t, t.runs[r])
  {
    if Books(s, t, r) {
      assert (t.runs[r].voucher.value, t.runs[r].email) in OnceRecords(t);
    }
  }

  lemma OtherRunStays(s: State, t: State, q: RunId, r: RunId)
    requires BookStep(s, t, q) && q != r && r in s.runs
    ensures r in t.runs && t.runs[r] == s.runs[r]
  {
    if t != s && !Books(s, t, q) {
      var voucher, confirmed, deletes :| CreatedOwn(s, t, q, voucher, confirmed, deletes);
    }
  }

  /** In every interleaving of both flows, a request takes a customer record only when nobody has it. */
  lemma {:induction false} RecordIsTakenOnce(s: State, events: seq<Event>, e: Event, r: RunId)
    requires Initial(s) && TakesRecord(Behave(s, events), Next(Behave(s, events), e), r)
    ensures IsNewRecord(Behave(s, events), Next(Behave(s, events), e), Next(Behave(s, events), e).runs[r])
  {
    BehaviourStaysBooked(s, events);
    TakenNow(Behave(s, events), Unrecorded(s, events), e, r);
  }

  lemma TakenNow(was: State, u: set<OrderId>, e: Event, r: RunId)
    requires Sane(was) && AllBooked(was, u) && TakesRecord(was, Next(was, e), r)
    ensures IsNewRecord(was, Next(was, e), Next(was, e).runs[r])
  {
    if IsRunEvent(e) {
      FitRun(was, u, e.run);
      RunEventIsBookStep(was, e);
      if e.run == r {
        BookStepTakesNew(was, Next(was, e), r);
      } else {
        OtherRunStays(was, Next(was, e), e.run, r);
      }
    } else {
      OthersOnlyArrive(was, e);
    }
  }

  predicate HasNothing(s: State, r: RunId) {
    r in s.runs && !s.runs[r].slot && !s.runs[r].record && forall o :: o in s.orders ==> s.orders[o].creator != Some(r)
  }

  /** In every interleaving of both flows, a payment-flow request that ended with a refusal, a tax error, a failed
      payment, an action required, or with its order rolled back for stock or gift cards, holds no slot and no record
      and has no order. */
  lemma {:induction false} EndingsGiveBack(s: State, events: seq<Event>, r: RunId)
    requires Initial(s)
    requires r in Behave(s, events).runs && Behave(s, events).runs[r].pc.Ended?
        && Behave(s, events).runs[r].flow.WithPayment?
    requires GivesBack(Behave(s, events).runs[r].pc.outcome)
    ensures HasNothing(Behave(s, events), r)
  {
    BehaviourStaysBooked(s, events);
    assert RunBooks(Behave(s, events), Behave(s, events).runs[r]);
  }

  /** One that ended by stranding its voucher still holds the slot it took. */
  lemma {:induction false} EndingsStrand(s: State, events: seq<Event>, r: RunId, v: VoucherCode)
    requires Initial(s)
    requires r in Behave(s, events).runs && Behave(s, events).runs[r].pc.Ended?
        && Behave(s, events).runs[r].flow.WithPayment?
    requires Strands(Behave(s, events).runs[r].pc.outcome)
    requires Behave(s, events).runs[r].voucher == Some(v) && Counted(Behave(s, events), v)
    ensures HoldsSlot(Behave(s, events).runs[r], v)
  {
    BehaviourStaysBooked(s, events);
    assert RunBooks(Behave(s, events), Behave(s, events).runs[r]);
  }

  // ----- Taking a voucher and giving it back

  /** What is left of a request that has taken its voucher, when nothing comes in between. */
  function Finish(s: State, r: RunId, payment: PaymentResult, result: CreateResult): State
    requires r in s.runs
  {
    var paid := Pay(s, r, payment);
    match paid.runs[r].pc
    case ReleasingRecord => DropRecord(paid, r)
    case Paid(_) => Second(paid, r, result)
    case _ => paid
  }

  /** A request that has its voucher back and nothing else to show. */
  predicate Undone(s: State, t: State, r: RunId, k: Record) {
    r in t.runs && t == s.(records := s.records - {k}, runs := s.runs[r := t.runs[r]])
  }

  lemma DeclinedUndoes(s: State, r: RunId, v: VoucherCode)
    requires At(s, r, Starting) && Active(s, v, true)
    ensures Undone(s, DropRecord(Pay(Take(s, r, v, Paying), r, Declined), r), r, (v, s.runs[r].email))
  {
    var taken := Take(s, r, v, Paying);
    assert Pay(taken, r, Declined) == ReleaseCounter(taken, r);
    var t := DropRecord(ReleaseCounter(taken, r), r);
    assert t.used == s.used && t.records == s.records - {(v, s.runs[r].email)};
  }

  lemma ReleaseUndoes(s: State, r: RunId, v: VoucherCode, actionRequired: bool, outcome: Outcome)
    requires At(s, r, Starting) && Active(s, v, true)
    ensures Undone(s, Release(Advance(Take(s, r, v, Paying), r, Paid(actionRequired)), r, outcome), r,
        (v, s.runs[r].email))
  {
    var paid := Advance(Take(s, r, v, Paying), r, Paid(actionRequired));
    var t := GiveBack(paid, r, v, outcome);
    assert Release(paid, r, outcome) == t;
    assert t.used == s.used && t.records == s.records - {(v, s.runs[r].email)};
  }

  /** A request that ends, after a release if anything is to be given back. */
  predicate EndsByRelease(s: State, t: State, r: RunId) {
    && r in s.runs && r in t.runs && t.runs[r].pc.Ended?
    && (GivesBack(t.runs[r].pc.outcome) ==> t == Release(s, r, t.runs[r].pc.outcome))
  }

  lemma ReleaseEnds(s: State, r: RunId, outcome: Outcome)
    requires r in s.runs
    ensures EndsByRelease(s, Release(s, r, outcome), r)
  {
    var t := Release(s, r, outcome);
    match s.runs[r].voucher
    case None => assert t.runs[r].pc == Ended(outcome);
    case Some(v) =>
      if ReleaseFails(s, Some(v)) {
        assert t.runs[r].pc == Ended(DatabaseFailed);
      } else {
        assert t == GiveBack(s, r, v, outcome);
        assert t.runs[r].pc == Ended(outcome);
      }
  }

  lemma OtherEnds(s: State, r: RunId, outcome: Outcome)
    requires r in s.runs && !GivesBack(outcome)
    ensures EndsByRelease(s, EndRun(s, r, outcome), r)
  {
  }

  lemma SecondReleases(s: State, r: RunId, result: CreateResult)
    requires r in s.runs && s.runs[r].pc.Paid?
    ensures EndsByRelease(s, Second(s, r, result), r)
  {
    var run := s.runs[r];
    var found := FindOrder(s, run.token);
    if result.CreateDatabaseError? {
      OtherEnds(s, r, DatabaseFailed);
    } else if run.token !in s.checkouts {
      OtherEnds(s, r, Returned(found));
    } else if run.pc.actionRequired {
      ReleaseEnds(s, r, ActionRequired);
    } else if result.RefundInProgress? {
      OtherEnds(s, r, RefundOngoing);
    } else if found.Some? {
      assert Second(s, r, result).runs[r].pc == Ended(FoundExisting(found.value));
    } else {
      match result
      case Success(confirmed) => assert Second(s, r, result).runs[r].pc == Ended(Completed(s.nextOrder));
      case InsufficientStock => ReleaseEnds(s, r, OutOfStock);
      case GiftCardNotApplicable => ReleaseEnds(s, r, GiftCardRefused);
      case _ => OtherEnds(s, r, UnexpectedError);
    }
  }

  lemma TakenIsFinished(s: State, r: RunId, v: VoucherCode, payment: PaymentResult, result: CreateResult)
    requires At(s, r, Starting) && Active(s, v, true)
    ensures
      var taken := Take(s, r, v, Paying);
      var t := Finish(taken, r, payment, result);
      r in t.runs && t.runs[r].pc.Ended? && (GivesBack(t.runs[r].pc.outcome) ==> Undone(s, t, r, (v, s.runs[r].email)))
  {
    var taken := Take(s, r, v, Paying);
    match payment
    case Declined => DeclinedUndoes(s, r, v);
    case BecameInactive =>
    case NoPayment => PaidIsFinished(s, r, v, false, result);
    case Charged(actionRequired) => PaidIsFinished(s, r, v, actionRequired, result);
  }

  lemma PaidIsFinished(s: State, r: RunId, v: VoucherCode, actionRequired: bool, result: CreateResult)
    requires At(s, r, Starting) && Active(s, v, true)
    ensures
      var t := Second(Advance(Take(s, r, v, Paying), r, Paid(actionRequired)), r, result);
      r in t.runs && t.runs[r].pc.Ended? && (GivesBack(t.runs[r].pc.outcome) ==> Undone(s, t, r, (v, s.runs[r].email)))
  {
    var paid := Advance(Take(s, r, v, Paying), r, Paid(actionRequired));
    SecondReleases(paid, r, result);
    ReleaseUndoes(s, r, v, actionRequired, Second(paid, r, result).runs[r].pc.outcome);
  }

  /**
   * A request that took its voucher and ends with a failed payment, an action required, missing stock or a refused
   * gift card puts back the counter, and leaves everything but its own end as it was exactly when the customer had no
   * record for the voucher before.
   */
  lemma GivingBackUndoesTaking(s: State, r: RunId, v: VoucherCode, inWindow: bool, payment: PaymentResult,
                               result: CreateResult)
    requires At(s, r, Starting) && s.runs[r].token in s.checkouts && s.checkouts[s.runs[r].token] == Some(v)
    requires Active(s, v, inWindow) && !(Once(s, v) && (v, s.runs[r].email) in s.records)
    ensures
      var t := Finish(First(s, r, inWindow, NoFault), r, payment, result);
      && r in t.runs && t.runs[r].pc.Ended?
      && (GivesBack(t.runs[r].pc.outcome) ==>
            && t.used == s.used
            && (t == s.(runs := s.runs[r := t.runs[r]]) <==> (v, s.runs[r].email) !in s.records))
  {
    assert First(s, r, inWindow, NoFault) == Take(s, r, v, Paying);
    TakenIsFinished(s, r, v, payment, result);
    var t := Finish(First(s, r, inWindow, NoFault), r, payment, result);
    if GivesBack(t.runs[r].pc.outcome) {
      assert t.records == s.records - {(v, s.runs[r].email)};
    }
  }
}
