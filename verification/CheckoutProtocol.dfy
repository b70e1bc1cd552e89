/**
 Completing a checkout as a protocol of transactions over a shared database
 (saleor/checkout/complete_checkout.py). Every step is one database transaction, or one statement run
 outside a transaction; requests interleave freely between steps.
 */
module CheckoutProtocol {

  import opened Wrappers

  // Codes, tokens and addresses are only compared, so they are numbers here.
  type VoucherCode = nat
  type Token = nat
  type Email = nat
  type RunId = nat
  type OrderId = nat

  /** The settings of a voucher, fixed for a run of the system. */
  datatype Voucher = Voucher(limit: Option<nat>, oncePerCustomer: bool)

  /** The two ways to complete a checkout; `order_create_from_checkout` may keep the checkout. */
  datatype Flow = WithPayment | WithTransactions(deletesCheckout: bool)

  datatype Outcome =
    | Returned(found: Option<OrderId>)   // the checkout was gone
    | Completed(order: OrderId)
    | FoundExisting(order: OrderId)
    | Rejected
    | VoucherInactive
    | AlreadyUsedByCustomer
    | TaxFailed
    | PaymentFailed
    | PaymentInactive
    | ActionRequired
    | RefundOngoing
    | OutOfStock
    | GiftCardRefused
    | UnexpectedError
    | DatabaseFailed
    | Crashed

  /** Where a request stands. */
  datatype Pc =
    | Starting
    | Paying                        // payment flow: between the two transactions
    | ReleasingRecord               // payment failed, the counter is back, the customer record is not
    | Paid(actionRequired: bool)    // payment flow: the second transaction is next
    | Creating                      // transaction flow: the usage is taken, the order is next
    | Ended(outcome: Outcome)

  /** A request, with the voucher it works with and what it took for it. */
  datatype Run = Run(flow: Flow, token: Token, email: Email, pc: Pc,
                     voucher: Option<VoucherCode>, slot: bool, record: bool)

  datatype Status = Unconfirmed | Unfulfilled | Expired

  datatype Order = Order(token: Token, voucher: Option<VoucherCode>, email: Email, status: Status,
                         creator: Option<RunId>)

  type Record = (VoucherCode, Email)

  /** The shared store. `created` and `unslotted` are history: the tokens orders were created for, and per
      voucher the orders created with it although no slot was taken for them. */
  datatype State = State(
    vouchers: map<VoucherCode, Voucher>,
    used: map<VoucherCode, nat>,
    records: set<Record>,
    checkouts: map<Token, Option<VoucherCode>>,
    orders: map<OrderId, Order>,
    nextOrder: OrderId,
    runs: map<RunId, Run>,
    created: seq<Token>,
    unslotted: map<VoucherCode, nat>)

  // What the surroundings decide in each step.

  datatype FirstFault = NoFault | RefusedEarly | TaxError | FirstUnexpected | FirstDatabaseError

  datatype PaymentResult = NoPayment | Charged(actionRequired: bool) | Declined | BecameInactive

  datatype CreateResult = Success(confirmed: bool) | RefundInProgress | InsufficientStock | GiftCardNotApplicable
                        | CreateUnexpected | CreateDatabaseError

  datatype Event =
    | Arrive(run: RunId, flow: Flow, token: Token, email: Email, inWindow: bool)
    | SetVoucher(token: Token, code: Option<VoucherCode>)
    | RemoveCheckout(token: Token)
    | FirstTransaction(run: RunId, inWindow: bool, fault: FirstFault)
    | ProcessPayment(run: RunId, payment: PaymentResult)
    | ReleaseRecord(run: RunId)
    | SecondTransaction(run: RunId, result: CreateResult)
    | TakeUsage(run: RunId, inWindow: bool, refused: bool)
    | CreateFromCheckout(run: RunId, inWindow: bool, result: CreateResult)
    | Crash(run: RunId)
    | ExpireOrders(batch: set<OrderId>)
    | DeleteExpired(batch: set<OrderId>)

  // ----- Queries

  /** `if voucher.usage_limit`. */
  predicate IsLimited(vouchers: map<VoucherCode, Voucher>, v: VoucherCode) {
    v in vouchers && vouchers[v].limit.Some? && vouchers[v].limit.value > 0
  }

  predicate IsOnce(vouchers: map<VoucherCode, Voucher>, v: VoucherCode) {
    v in vouchers && vouchers[v].oncePerCustomer
  }

  predicate Limited(s: State, v: VoucherCode) {
    IsLimited(s.vouchers, v)
  }

  predicate Once(s: State, v: VoucherCode) {
    IsOnce(s.vouchers, v)
  }

  /** `VoucherQueryset.active_in_channel`; `inWindow` stands for its dates and channel listing. */
  predicate Active(s: State, v: VoucherCode, inWindow: bool) {
    v in s.vouchers && v in s.used && inWindow
    && (s.vouchers[v].limit.None? || s.used[v] < s.vouchers[v].limit.value)
  }

  function OrdersOf(s: State, t: Token): set<OrderId> {
    set o | o in s.orders && s.orders[o].token == t
  }

  predicate IsLeast(ids: set<OrderId>, o: OrderId) {
    o in ids && forall p :: p in ids ==> o <= p
  }

  lemma LeastOfMore(ids: set<OrderId>, others: set<OrderId>, x: OrderId, y: OrderId)
    requires ids == others + {x} && IsLeast(others, y)
    ensures IsLeast(ids, if x <= y then x else y)
  {
  }

  lemma LeastIsUnique(ids: set<OrderId>, o: OrderId, p: OrderId)
    requires IsLeast(ids, o) && IsLeast(ids, p)
    ensures o == p
  {
    assert o <= p && p <= o;
  }

  lemma {:induction false} LeastExists(ids: set<OrderId>) returns (least: OrderId)
    requires ids != {}
    ensures IsLeast(ids, least)
    decreases |ids|
  {
    least :| least in ids;
    var others := ids - {least};
    assert ids == others + {least};
    if others != {} {
      var y := LeastExists(others);
      LeastOfMore(ids, others, least, y);
      least := if least <= y then least else y;
    }
  }

  /** The first order with a checkout token, if there is one. */
  function FindOrder(s: State, t: Token): (found: Option<OrderId>)
    ensures found.None? <==> OrdersOf(s, t) == {}
    ensures found.Some? ==> IsLeast(OrdersOf(s, t), found.value)
  {
    var ids := OrdersOf(s, t);
    if ids == {} then None
    else
      assert exists o :: IsLeast(ids, o) by { var o := LeastExists(ids); }
      var o :| o in ids && IsLeast(ids, o);
      Some(o)
  }

  // ----- Steps

  /** The request goes on without touching anything else. */
  function Advance(s: State, r: RunId, pc: Pc): State
    requires r in s.runs
  {
    s.(runs := s.runs[r := s.runs[r].(pc := pc)])
  }

  function EndRun(s: State, r: RunId, outcome: Outcome): State
    requires r in s.runs
  {
    Advance(s, r, Ended(outcome))
  }

  /** The store after a run took a slot of a voucher, and a customer record if the voucher asks for it. */
  function Take(s: State, r: RunId, v: VoucherCode, pc: Pc): State
    requires r in s.runs && v in s.used
  {
    var run := s.runs[r];
    s.(used := if Limited(s, v) then s.used[v := s.used[v] + 1] else s.used,
       records := if Once(s, v) then s.records + {(v, run.email)} else s.records,
       runs := s.runs[r := run.(pc := pc, voucher := Some(v), slot := Limited(s, v), record := Once(s, v))])
  }

  /** `release_voucher_usage` inside a transaction. The column is non-negative: the database refuses to
      take one from zero, which undoes the whole transaction. */
  function Release(s: State, r: RunId, outcome: Outcome): State
    requires r in s.runs
  {
    var voucher := s.runs[r].voucher;
    if voucher.None? then EndRun(s, r, outcome)
    else if ReleaseFails(s, voucher) then EndRun(s, r, DatabaseFailed)
    else GiveBack(s, r, voucher.value, outcome)
  }

  predicate ReleaseFails(s: State, voucher: Option<VoucherCode>) {
    voucher.Some? && Limited(s, voucher.value) && (voucher.value !in s.used || s.used[voucher.value] == 0)
  }

  /** The counter and the customer record given back. */
  function GivenBack(s: State, v: VoucherCode, email: Email): State
    requires !ReleaseFails(s, Some(v))
  {
    s.(used := if Limited(s, v) then s.used[v := s.used[v] - 1] else s.used, records := s.records - {(v, email)})
  }

  function GiveBack(s: State, r: RunId, v: VoucherCode, outcome: Outcome): State
    requires r in s.runs && !ReleaseFails(s, Some(v))
  {
    var run := s.runs[r];
    GivenBack(s, v, run.email).(runs := s.runs[r := run.(pc := Ended(outcome), slot := false, record := false)])
  }

  /** The store with the order of a run. */
  function Inserted(s: State, r: RunId, voucher: Option<VoucherCode>, confirmed: bool): State
    requires r in s.runs
  {
    var run := s.runs[r];
    var order := Order(run.token, voucher, run.email, if confirmed then Unfulfilled else Unconfirmed, Some(r));
    s.(orders := s.orders[s.nextOrder := order],
       nextOrder := s.nextOrder + 1,
       created := s.created + [run.token],
       unslotted := if voucher.Some? && voucher.value in s.unslotted && !run.slot
                    then s.unslotted[voucher.value := s.unslotted[voucher.value] + 1] else s.unslotted)
  }

  /** The store after a run created its order. */
  function Create(s: State, r: RunId, voucher: Option<VoucherCode>, confirmed: bool, deletes: bool): State
    requires r in s.runs
  {
    var run := s.runs[r];
    Inserted(s, r, voucher, confirmed).(
      checkouts := if deletes then s.checkouts - {run.token} else s.checkouts,
      runs := s.runs[r := run.(pc := Ended(Completed(s.nextOrder)), slot := false, record := false)])
  }

  /** The first `transaction_with_commit_on_errors` of `complete_checkout_with_payment`. */
  function First(s: State, r: RunId, inWindow: bool, fault: FirstFault): State
    requires r in s.runs
  {
    var run := s.runs[r];
    if fault.FirstDatabaseError? then EndRun(s, r, DatabaseFailed)
    else if run.token !in s.checkouts then EndRun(s, r, Returned(FindOrder(s, run.token)))
    else if fault.RefusedEarly? then EndRun(s, r, Rejected)
    else
      match s.checkouts[run.token]
      case None =>
        if fault.TaxError? then EndRun(s, r, TaxFailed)
        else if fault.FirstUnexpected? then EndRun(s, r, UnexpectedError)
        else Advance(s, r, Paying)
      case Some(v) => FirstWithVoucher(s, r, v, inWindow, fault)
  }

  /** The counter goes up before the record is looked for, and the error that the record is there commits it. */
  function TakeCounter(s: State, r: RunId, v: VoucherCode): State
    requires r in s.runs && v in s.used
  {
    s.(used := if Limited(s, v) then s.used[v := s.used[v] + 1] else s.used,
       runs := s.runs[r := s.runs[r].(pc := Ended(AlreadyUsedByCustomer), voucher := Some(v), slot := Limited(s, v))])
  }

  /** `_process_voucher_data_for_order` and what follows it in the transaction. */
  function FirstWithVoucher(s: State, r: RunId, v: VoucherCode, inWindow: bool, fault: FirstFault): State
    requires r in s.runs
  {
    var run := s.runs[r];
    if !Active(s, v, inWindow) then EndRun(s, r, VoucherInactive)
    else if Once(s, v) && (v, run.email) in s.records then TakeCounter(s, r, v)
    else if fault.TaxError? then EndRun(s, r, TaxFailed).(records := s.records - {(v, run.email)})
    else Take(s, r, v, if fault.FirstUnexpected? then Ended(UnexpectedError) else Paying)
  }

  /** The payment, and the first of the two statements that give the voucher back when it fails. */
  function Pay(s: State, r: RunId, payment: PaymentResult): State
    requires r in s.runs
  {
    match payment
    case NoPayment => Advance(s, r, Paid(false))
    case Charged(actionRequired) => Advance(s, r, Paid(actionRequired))
    case BecameInactive => EndRun(s, r, PaymentInactive)
    case Declined => if s.runs[r].voucher.None? then EndRun(s, r, PaymentFailed) else ReleaseCounter(s, r)
  }

  function ReleaseCounter(s: State, r: RunId): State
    requires r in s.runs && s.runs[r].voucher.Some?
  {
    var v := s.runs[r].voucher.value;
    if !Limited(s, v) then Advance(s, r, ReleasingRecord)
    else if v !in s.used || s.used[v] == 0 then EndRun(s, r, DatabaseFailed)
    else s.(used := s.used[v := s.used[v] - 1], runs := s.runs[r := s.runs[r].(pc := ReleasingRecord, slot := false)])
  }

  /** The second statement. */
  function DropRecord(s: State, r: RunId): State
    requires r in s.runs
  {
    var run := s.runs[r];
    if run.voucher.None? then EndRun(s, r, PaymentFailed)
    else s.(records := s.records - {(run.voucher.value, run.email)},
            runs := s.runs[r := run.(pc := Ended(PaymentFailed), record := false)])
  }

  /** The second `transaction_with_commit_on_errors`; an error in the nested `_create_order` goes back to
      its savepoint. */
  function Second(s: State, r: RunId, result: CreateResult): State
    requires r in s.runs && s.runs[r].pc.Paid?
  {
    var run := s.runs[r];
    if result.CreateDatabaseError? then EndRun(s, r, DatabaseFailed)
    else if run.token !in s.checkouts then EndRun(s, r, Returned(FindOrder(s, run.token)))
    else if run.pc.actionRequired then Release(s, r, ActionRequired)
    else if result.RefundInProgress? then EndRun(s, r, RefundOngoing)
    else if FindOrder(s, run.token).Some? then
      EndRun(s, r, FoundExisting(FindOrder(s, run.token).value)).(checkouts := s.checkouts - {run.token})
    else
      match result
      case Success(confirmed) => Create(s, r, run.voucher, confirmed, true)
      case InsufficientStock => Release(s, r, OutOfStock)
      case GiftCardNotApplicable => Release(s, r, GiftCardRefused)
      case _ => EndRun(s, r, UnexpectedError)
  }

  /** The voucher that a request of the transaction flow is loaded with: that of its checkout, while it is active. */
  function LoadedVoucher(s: State, flow: Flow, token: Token, inWindow: bool): Option<VoucherCode> {
    if flow.WithTransactions? && token in s.checkouts && s.checkouts[token].Some?
       && Active(s, s.checkouts[token].value, inWindow)
    then s.checkouts[token]
    else None
  }

  /** The first `transaction.atomic` of `create_order_from_checkout`: an inactive voucher takes nothing and
      stops nothing. */
  function TakeVoucher(s: State, r: RunId, inWindow: bool, refused: bool): State
    requires r in s.runs
  {
    var run := s.runs[r];
    if refused then EndRun(s, r, Rejected)
    else if run.voucher.None? || !Active(s, run.voucher.value, inWindow) then Advance(s, r, Creating)
    else if Once(s, run.voucher.value) && (run.voucher.value, run.email) in s.records
    then EndRun(s, r, AlreadyUsedByCustomer)
    else Take(s, r, run.voucher.value, Creating)
  }

  /** The voucher an order of the transaction flow gets: the one the request was loaded with, or else the
      one the checkout has by now. */
  function OrderVoucher(s: State, r: RunId, inWindow: bool): Option<VoucherCode>
    requires r in s.runs && s.runs[r].token in s.checkouts
  {
    var code := s.checkouts[s.runs[r].token];
    if s.runs[r].voucher.Some? then s.runs[r].voucher
    else if code.Some? && Active(s, code.value, inWindow) then code
    else None
  }

  /** The second one: every error undoes the release that was made for it. */
  function CreateWithTransactions(s: State, r: RunId, inWindow: bool, result: CreateResult): State
    requires r in s.runs
  {
    var run := s.runs[r];
    if result.CreateDatabaseError? then EndRun(s, r, DatabaseFailed)
    else if run.token !in s.checkouts then EndRun(s, r, Returned(FindOrder(s, run.token)))
    else
      var voucher := OrderVoucher(s, r, inWindow);
      match result
      case Success(confirmed) =>
        Create(s, r, voucher, confirmed, run.flow.WithTransactions? && run.flow.deletesCheckout)
      case InsufficientStock => EndRun(s, r, if ReleaseFails(s, voucher) then DatabaseFailed else OutOfStock)
      case GiftCardNotApplicable => EndRun(s, r, if ReleaseFails(s, voucher) then DatabaseFailed else GiftCardRefused)
      case _ => EndRun(s, r, UnexpectedError)
  }

  /** The orders of a batch that carry a voucher. */
  function Carrying(orders: map<OrderId, Order>, batch: set<OrderId>, v: VoucherCode): set<OrderId> {
    set o | o in batch && o in orders && orders[o].voucher == Some(v)
  }

  function MarkExpired(orders: map<OrderId, Order>, batch: set<OrderId>): map<OrderId, Order> {
    map o | o in orders :: if o in batch then orders[o].(status := Expired) else orders[o]
  }

  predicate Counted(s: State, v: VoucherCode) {
    v in s.vouchers && s.vouchers[v].limit.Some?
  }

  /** A counter would go below zero. */
  predicate Overdraws(s: State, batch: set<OrderId>) {
    exists v :: v in s.used && Counted(s, v) && s.used[v] < |Carrying(s.orders, batch, v)|
  }

  /** `_bulk_release_voucher_usage` on the counters. */
  function Lowered(s: State, batch: set<OrderId>): map<VoucherCode, int> {
    map v | v in s.used :: if Counted(s, v) then s.used[v] - |Carrying(s.orders, batch, v)| else s.used[v]
  }

  /** `_expire_orders` with `_bulk_release_voucher_usage`, undone if a counter would go below zero. */
  function Expire(s: State, batch: set<OrderId>): State {
    if Overdraws(s, batch) then s
    else
      s.(orders := MarkExpired(s.orders, batch),
         used := Lowered(s, batch),
         records := set k | k in s.records && !ReleasedByBatch(s.orders, batch, k))
  }

  predicate ReleasedByBatch(orders: map<OrderId, Order>, batch: set<OrderId>, k: Record) {
    exists o :: o in batch && o in orders && orders[o].voucher == Some(k.0) && orders[o].email == k.1
  }

  predicate At(s: State, r: RunId, pc: Pc) {
    r in s.runs && s.runs[r].pc == pc
  }

  predicate HasStatus(s: State, batch: set<OrderId>, status: Status) {
    forall o :: o in batch ==> o in s.orders && s.orders[o].status == status
  }

  /** The events in which a request takes a step. */
  predicate IsRunEvent(e: Event) {
    e.FirstTransaction? || e.ProcessPayment? || e.ReleaseRecord? || e.SecondTransaction? || e.TakeUsage?
    || e.CreateFromCheckout? || e.Crash?
  }

  /** The step of a request. */
  function NextOfRun(s: State, e: Event): State
    requires IsRunEvent(e)
  {
    match e
    case FirstTransaction(r, inWindow, fault) =>
      if At(s, r, Starting) && s.runs[r].flow.WithPayment? then First(s, r, inWindow, fault) else s
    case ProcessPayment(r, payment) => if At(s, r, Paying) then Pay(s, r, payment) else s
    case ReleaseRecord(r) => if At(s, r, ReleasingRecord) then DropRecord(s, r) else s
    case SecondTransaction(r, result) => if r in s.runs && s.runs[r].pc.Paid? then Second(s, r, result) else s
    case TakeUsage(r, inWindow, refused) =>
      if At(s, r, Starting) && s.runs[r].flow.WithTransactions? then TakeVoucher(s, r, inWindow, refused) else s
    case CreateFromCheckout(r, inWindow, result) =>
      if At(s, r, Creating) then CreateWithTransactions(s, r, inWindow, result) else s
    case Crash(r) => if r in s.runs && !s.runs[r].pc.Ended? then EndRun(s, r, Crashed) else s
  }

  /** A request that arrives, or a change from outside the requests. */
  function NextOfOthers(s: State, e: Event): State
    requires !IsRunEvent(e)
  {
    match e
    case Arrive(r, flow, token, email, inWindow) =>
      if r in s.runs then s
      else
        var voucher := LoadedVoucher(s, flow, token, inWindow);
        s.(runs := s.runs[r := Run(flow, token, email, Starting, voucher, false, false)])
    case SetVoucher(t, code) => if t in s.checkouts then s.(checkouts := s.checkouts[t := code]) else s
    case RemoveCheckout(t) => s.(checkouts := s.checkouts - {t})
    case ExpireOrders(batch) => if HasStatus(s, batch, Unconfirmed) then Expire(s, batch) else s
    case DeleteExpired(batch) => if HasStatus(s, batch, Expired) then s.(orders := s.orders - batch) else s
  }

  /** One step; an event that is not possible now changes nothing. */
  function Next(s: State, e: Event): State {
    if IsRunEvent(e) then NextOfRun(s, e) else NextOfOthers(s, e)
  }

  /** A run of the whole system. */
  function Behave(s: State, events: seq<Event>): State {
    if events == [] then s else Next(Behave(s, events[..|events| - 1]), events[|events| - 1])
  }
}
