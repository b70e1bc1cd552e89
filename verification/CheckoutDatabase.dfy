/**
 The transactions of saleor/checkout/complete_checkout.py as statements over a mutable database, with
 savepoints and rollbacks. Each method carries out one step of CheckoutProtocol.
 */
module CheckoutDatabase {
  import opened Wrappers
  import opened CheckoutProtocol
  import opened CheckoutAccounting

  /** What a rollback restores; requests keep their own memory. */
  datatype Savepoint = Savepoint(
    used: map<VoucherCode, nat>, records: set<Record>, checkouts: map<Token, Option<VoucherCode>>,
    orders: map<OrderId, Order>, nextOrder: OrderId,
    ghost created: seq<Token>, ghost unslotted: map<VoucherCode, nat>)

  class Database {
    const vouchers: map<VoucherCode, Voucher>
    var used: map<VoucherCode, nat>
    var records: set<Record>
    var checkouts: map<Token, Option<VoucherCode>>
    var orders: map<OrderId, Order>
    var nextOrder: OrderId
    var runs: map<RunId, Run>
    ghost var created: seq<Token>
    ghost var unslotted: map<VoucherCode, nat>

    ghost function Store(): State
      reads this
    {
      State(vouchers, used, records, checkouts, orders, nextOrder, runs, created, unslotted)
    }

    // ----- Statements

    /** `get_voucher_for_checkout(…, with_lock=True)`. */
    method LockActiveVoucher(code: Option<VoucherCode>, inWindow: bool) returns (voucher: Option<VoucherCode>)
      ensures voucher == if code.Some? && Active(Store(), code.value, inWindow) then code else None
    {
      voucher := None;
      if code.Some? && code.value in vouchers && code.value in used && inWindow {
        var limit := vouchers[code.value].limit;
        if limit.None? || used[code.value] < limit.value {
          voucher := code;
        }
      }
    }

    method IncreaseVoucherUsage(v: VoucherCode)
      requires v in used
      modifies this`used
      ensures used == old(used)[v := old(used)[v] + 1]
    {
      used := used[v := used[v] + 1];
    }

    /** The column is non-negative: the statement fails at zero. */
    method DecreaseVoucherUsage(v: VoucherCode) returns (failed: bool)
      modifies this`used
      ensures failed <==> v !in old(used) || old(used)[v] == 0
      ensures used == if failed then old(used) else old(used)[v := old(used)[v] - 1]
    {
      failed := v !in used || used[v] == 0;
      if !failed {
        used := used[v := used[v] - 1];
      }
    }

    method AddVoucherUsageByCustomer(v: VoucherCode, email: Email) returns (notApplicable: bool)
      modifies this`records
      ensures notApplicable <==> (v, email) in old(records)
      ensures records == old(records) + {(v, email)}
    {
      notApplicable := (v, email) in records;
      records := records + {(v, email)};
    }

    method ReleaseVoucherUsage(voucher: Option<VoucherCode>, email: Email) returns (failed: bool)
      modifies this`used, this`records
      ensures failed <==> ReleaseFails(old(Store()), voucher)
      ensures failed || voucher.None? ==> used == old(used) && records == old(records)
      ensures !failed && voucher.Some? ==>
                && used == (if IsLimited(vouchers, voucher.value)
                            then old(used)[voucher.value := old(used)[voucher.value] - 1] else old(used))
                && records == old(records) - {(voucher.value, email)}
    {
      failed := false;
      if voucher.Some? {
        if IsLimited(vouchers, voucher.value) {
          failed := DecreaseVoucherUsage(voucher.value);
        }
        if !failed {
          records := records - {(voucher.value, email)};
        }
      }
    }

    method Save() returns (sp: Savepoint)
      ensures sp == Savepoint(used, records, checkouts, orders, nextOrder, created, unslotted)
    {
      sp := Savepoint(used, records, checkouts, orders, nextOrder, created, unslotted);
    }

    method RollBack(sp: Savepoint)
      modifies this
      ensures sp == Savepoint(used, records, checkouts, orders, nextOrder, created, unslotted)
      ensures runs == old(runs)
    {
      used, records, checkouts, orders, nextOrder := sp.used, sp.records, sp.checkouts, sp.orders, sp.nextOrder;
      created, unslotted := sp.created, sp.unslotted;
    }

    /** The request leaves with this outcome; what it holds is its own memory. */
    method End(r: RunId, outcome: Outcome)
      requires r in runs
      modifies this`runs
      ensures Store() == EndRun(old(Store()), r, outcome)
    {
      runs := runs[r := runs[r].(pc := Ended(outcome))];
    }

    /** A database error undoes the transaction that started at `s` and ends the request. */
    method RollBackAndEnd(r: RunId, outcome: Outcome, sp: Savepoint, ghost s: State)
      requires r in runs && s.runs == runs && s.vouchers == vouchers
      requires sp == Savepoint(s.used, s.records, s.checkouts, s.orders, s.nextOrder, s.created, s.unslotted)
      modifies this
      ensures Store() == EndRun(s, r, outcome)
    {
      RollBack(sp);
      End(r, outcome);
    }

    method FirstOrderOf(token: Token) returns (found: Option<OrderId>)
      ensures found == FindOrder(Store(), token)
    {
      found := None;
      var ids := set o | o in orders && orders[o].token == token;
      if ids != {} {
        ghost var least := LeastExists(ids);
        var o :| o in ids && IsLeast(ids, o);
        found := Some(o);
      }
      assert ids == OrdersOf(Store(), token);
      if found.Some? {
        LeastIsUnique(ids, found.value, FindOrder(Store(), token).value);
      }
    }

    // ----- The payment flow

    /** `_process_voucher_data_for_order`: the counter first, the customer record second. */
    method ProcessVoucherData(code: Option<VoucherCode>, email: Email, inWindow: bool)
      returns (voucher: Option<VoucherCode>, slot: bool, record: bool, error: Option<Outcome>)
      modifies this`used, this`records
      ensures var s := old(Store());
              if code.None? then voucher == None && !slot && !record && error == None && Store() == s
              else if !Active(s, code.value, inWindow) then
                voucher == None && !slot && !record && error == Some(VoucherInactive) && Store() == s
              else
                var v := code.value;
                && voucher == code && slot == Limited(s, v)
                && used == (if slot then s.used[v := s.used[v] + 1] else s.used)
                && (if Once(s, v) && (v, email) in s.records
                    then error == Some(AlreadyUsedByCustomer) && !record && records == s.records
                    else error == None && record == Once(s, v)
                         && records == if record then s.records + {(v, email)} else s.records)
    {
      slot, record, error := false, false, None;
      voucher := LockActiveVoucher(code, inWindow);
      if code.Some? && voucher.None? {
        error := Some(VoucherInactive);
        return;
      }
      if voucher.None? {
        return;
      }
      if IsLimited(vouchers, voucher.value) {
        IncreaseVoucherUsage(voucher.value);
        slot := true;
      }
      if IsOnce(vouchers, voucher.value) {
        var notApplicable := AddVoucherUsageByCustomer(voucher.value, email);
        if notApplicable {
          error := Some(AlreadyUsedByCustomer);
        } else {
          record := true;
        }
      }
      assert error.Some? ==> records == old(records);
    }

    /** The first transaction of `complete_checkout_with_payment`: errors commit, database errors do not. */
    method CompletePrePayment(r: RunId, inWindow: bool, fault: FirstFault)
      requires r in runs && runs[r].pc == Starting && runs[r].voucher.None? && !runs[r].slot && !runs[r].record
      modifies this
      ensures Store() == First(old(Store()), r, inWindow, fault)
    {
      var run := runs[r];
      var sp := Save();
      var outcome: Option<Outcome> := None;
      var voucher: Option<VoucherCode>, slot, record := None, false, false;
      if run.token !in checkouts {
        var found := FirstOrderOf(run.token);
        outcome := Some(Returned(found));
      } else if fault.RefusedEarly? {
        outcome := Some(Rejected);
      } else {
        voucher, slot, record, outcome := ProcessVoucherData(checkouts[run.token], run.email, inWindow);
        if outcome.None? {
          if fault.TaxError? {
            var failed := ReleaseVoucherUsage(voucher, run.email);
            voucher, slot, record, outcome := None, false, false, Some(TaxFailed);
            assert used == old(used);
          } else if fault.FirstUnexpected? {
            outcome := Some(UnexpectedError);
          }
        }
      }
      if fault.FirstDatabaseError? {
        RollBackAndEnd(r, DatabaseFailed, sp, old(Store()));
      } else {
        var pc := if outcome.Some? then Ended(outcome.value) else Paying;
        runs := runs[r := run.(pc := pc, voucher := voucher, slot := slot, record := record)];
      }
    }

    /** `_process_payment` and the check that the payment is still active, outside any transaction. */
    method ProcessPaymentOf(r: RunId, payment: PaymentResult)
      requires r in runs
      modifies this
      ensures Store() == Pay(old(Store()), r, payment)
    {
      var run := runs[r];
      match payment
      case NoPayment => runs := runs[r := run.(pc := Paid(false))];
      case Charged(actionRequired) => runs := runs[r := run.(pc := Paid(actionRequired))];
      case BecameInactive => End(r, PaymentInactive);
      case Declined =>
        if run.voucher.None? {
          End(r, PaymentFailed);
        } else if !IsLimited(vouchers, run.voucher.value) {
          runs := runs[r := run.(pc := ReleasingRecord)];
        } else {
          var failed := DecreaseVoucherUsage(run.voucher.value);
          runs := runs[r := if failed then run.(pc := Ended(DatabaseFailed))
                            else run.(pc := ReleasingRecord, slot := false)];
        }
    }

    /** The second statement of `release_voucher_usage` after a failed payment, also outside any transaction. */
    method ReleaseRecordOf(r: RunId)
      requires r in runs
      modifies this
      ensures Store() == DropRecord(old(Store()), r)
    {
      var run := runs[r];
      if run.voucher.Some? {
        records := records - {(run.voucher.value, run.email)};
        run := run.(record := false);
      }
      runs := runs[r := run.(pc := Ended(PaymentFailed))];
    }

    /** The row of a new order, and the history of it. */
    method InsertOrder(r: RunId, voucher: Option<VoucherCode>, confirmed: bool)
      requires r in runs
      modifies this`orders, this`nextOrder, this`created, this`unslotted
      ensures Store() == Inserted(old(Store()), r, voucher, confirmed)
    {
      var run := runs[r];
      var status := if confirmed then Unfulfilled else Unconfirmed;
      orders := orders[nextOrder := Order(run.token, voucher, run.email, status, Some(r))];
      nextOrder := nextOrder + 1;
      created := created + [run.token];
      if voucher.Some? && voucher.value in unslotted && !run.slot {
        unslotted := unslotted[voucher.value := unslotted[voucher.value] + 1];
      }
    }

    /** The two statements with nothing in between: they do what a release inside a transaction does. */
    method ReleaseAfterFailedPayment(r: RunId)
      requires r in runs && (runs[r].slot ==> runs[r].voucher.Some? && IsLimited(vouchers, runs[r].voucher.value))
      modifies this
      ensures Store() == Release(old(Store()), r, PaymentFailed)
    {
      ghost var s := Store();
      ProcessPaymentOf(r, Declined);
      if runs[r].pc.ReleasingRecord? {
        ReleaseRecordOf(r);
      }
      StatementsAreRelease(s, r);
    }

    /** `_create_order`, an atomic block inside the second transaction: it writes the order before the stock
        is allocated, and goes back to its savepoint if that fails. */
    method CreateOrder(r: RunId, result: CreateResult) returns (order: Option<OrderId>, existed: bool)
      requires r in runs
      modifies this
      ensures runs == old(runs)
      ensures existed <==> FindOrder(old(Store()), runs[r].token).Some?
      ensures existed ==> order == FindOrder(old(Store()), runs[r].token) && Store() == old(Store())
      ensures !existed && !result.Success? ==> order == None && Store() == old(Store())
      ensures !existed && result.Success? ==>
                order == Some(old(nextOrder)) && Store() == Inserted(old(Store()), r, runs[r].voucher, result.confirmed)
    {
      order := FirstOrderOf(runs[r].token);
      existed := order.Some?;
      if existed {
        return;
      }
      var sp := Save();
      order := Some(nextOrder);
      InsertOrder(r, runs[r].voucher, result.Success? && result.confirmed);
      if !result.Success? {
        RollBack(sp);
        order := None;
      }
    }

    /** Ends a request inside a transaction after giving its voucher back; if a statement fails, the
        transaction goes back to its start. */
    method ReleaseAndEnd(r: RunId, outcome: Outcome, sp: Savepoint)
      requires r in runs && sp == Savepoint(used, records, checkouts, orders, nextOrder, created, unslotted)
      modifies this
      ensures Store() == Release(old(Store()), r, outcome)
    {
      var voucher := runs[r].voucher;
      if voucher.None? {
        End(r, outcome);
      } else {
        ghost var s := Store();
        ghost var released := Release(s, r, outcome);
        assert released == if ReleaseFails(s, voucher) then EndRun(s, r, DatabaseFailed)
            else GiveBack(s, r, voucher.value, outcome);
        ReleaseVoucherAndEnd(r, voucher.value, outcome, sp);
        assert Store() == released;
      }
    }

    method ReleaseVoucherAndEnd(r: RunId, v: VoucherCode, outcome: Outcome, sp: Savepoint)
      requires r in runs && runs[r].voucher == Some(v)
          && sp == Savepoint(used, records, checkouts, orders, nextOrder, created, unslotted)
      modifies this
      ensures ReleaseFails(old(Store()), Some(v)) ==> Store() == EndRun(old(Store()), r, DatabaseFailed)
      ensures !ReleaseFails(old(Store()), Some(v)) ==> Store() == GiveBack(old(Store()), r, v, outcome)
    {
      var failed := ReleaseVoucherUsage(Some(v), runs[r].email);
      if failed {
        RollBackAndEnd(r, DatabaseFailed, sp, old(Store()));
      } else {
        EndReleased(r, v, outcome, old(Store()));
      }
    }

    method EndReleased(r: RunId, v: VoucherCode, outcome: Outcome, ghost s: State)
      requires r in runs && s.runs == runs && !ReleaseFails(s, Some(v)) && Store() == GivenBack(s, v, runs[r].email)
      modifies this`runs
      ensures Store() == GiveBack(s, r, v, outcome)
    {
      runs := runs[r := runs[r].(pc := Ended(outcome), slot := false, record := false)];
    }

    /** The second transaction of `complete_checkout_with_payment`. */
    method CompletePostPayment(r: RunId, result: CreateResult)
      requires r in runs && runs[r].pc.Paid?
      modifies this
      ensures Store() == Second(old(Store()), r, result)
    {
      var run := runs[r];
      var sp := Save();
      if result.CreateDatabaseError? {
        var order, existed := CreateOrder(r, result);
        RollBackAndEnd(r, DatabaseFailed, sp, old(Store()));
      } else if run.token !in checkouts {
        var found := FirstOrderOf(run.token);
        End(r, Returned(found));
      } else if run.pc.actionRequired {
        ReleaseAndEnd(r, ActionRequired, sp);
      } else if result.RefundInProgress? {
        End(r, RefundOngoing);
      } else {
        CreateOrderAndEnd(r, result, sp);
      }
    }

    method CreateOrderAndEnd(r: RunId, result: CreateResult, sp: Savepoint)
      requires r in runs && runs[r].pc == Paid(false) && runs[r].token in checkouts
      requires sp == Savepoint(used, records, checkouts, orders, nextOrder, created, unslotted)
      requires !result.CreateDatabaseError? && !result.RefundInProgress?
      modifies this
      ensures Store() == Second(old(Store()), r, result)
    {
      var run := runs[r];
      var order, existed := CreateOrder(r, result);
      if order.Some? {
        checkouts := checkouts - {run.token};
        runs := runs[r := if existed then run.(pc := Ended(FoundExisting(order.value)))
                          else run.(pc := Ended(Completed(order.value)), slot := false, record := false)];
      } else if result.InsufficientStock? {
        ReleaseAndEnd(r, OutOfStock, sp);
      } else if result.GiftCardNotApplicable? {
        ReleaseAndEnd(r, GiftCardRefused, sp);
      } else {
        End(r, UnexpectedError);
      }
    }

    // ----- The transaction flow

    /** `_increase_voucher_usage` in its own `transaction.atomic`: the record first, the counter second. */
    method TakeUsageOf(r: RunId, inWindow: bool, refused: bool)
      requires r in runs && runs[r].pc == Starting && !runs[r].slot && !runs[r].record
      modifies this
      ensures Store() == TakeVoucher(old(Store()), r, inWindow, refused)
    {
      var run := runs[r];
      if refused {
        End(r, Rejected);
        return;
      }
      var sp := Save();
      var voucher := LockActiveVoucher(run.voucher, inWindow);
      if voucher.None? {
        runs := runs[r := run.(pc := Creating)];
        return;
      }
      var v := voucher.value;
      if IsOnce(vouchers, v) {
        var notApplicable := AddVoucherUsageByCustomer(v, run.email);
        if notApplicable {
          RollBackAndEnd(r, AlreadyUsedByCustomer, sp, old(Store()));
          return;
        }
      }
      if IsLimited(vouchers, v) {
        IncreaseVoucherUsage(v);
      }
      runs := runs[r := run.(pc := Creating, slot := IsLimited(vouchers, v), record := IsOnce(vouchers, v))];
    }

    /** The `transaction.atomic` of `create_order_from_checkout`. */
    method CreateOrderFromCheckout(r: RunId, inWindow: bool, result: CreateResult)
      requires r in runs && runs[r].flow.WithTransactions?
      modifies this
      ensures Store() == CreateWithTransactions(old(Store()), r, inWindow, result)
    {
      var run := runs[r];
      if run.token !in checkouts {
        var found := FirstOrderOf(run.token);
        End(r, if result.CreateDatabaseError? then DatabaseFailed else Returned(found));
      } else {
        var voucher := run.voucher;
        if voucher.None? {
          voucher := LockActiveVoucher(checkouts[run.token], inWindow);
        }
        match result
        case Success(confirmed) => WriteOrder(r, voucher, confirmed);
        case _ => FailToWriteOrder(r, voucher, result);
      }
    }

    /** The part of the block that succeeds. */
    method WriteOrder(r: RunId, voucher: Option<VoucherCode>, confirmed: bool)
      requires r in runs && runs[r].flow.WithTransactions?
      modifies this
      ensures Store() == Create(old(Store()), r, voucher, confirmed, old(runs)[r].flow.deletesCheckout)
    {
      var run, order := runs[r], nextOrder;
      InsertOrder(r, voucher, confirmed);
      runs := runs[r := run.(pc := Ended(Completed(order)), slot := false, record := false)];
      if run.flow.deletesCheckout {
        checkouts := checkouts - {run.token};
      }
    }

    /** The part that does not: it releases the voucher on errors of the stock or the gift cards and raises
        the error again, which undoes the order and the release. */
    method FailToWriteOrder(r: RunId, voucher: Option<VoucherCode>, result: CreateResult)
      requires r in runs && !result.Success?
      modifies this
      ensures Store() == EndRun(old(Store()), r,
                                if result.InsufficientStock? && !ReleaseFails(old(Store()), voucher) then OutOfStock
                                else if result.GiftCardNotApplicable? && !ReleaseFails(old(Store()), voucher)
                                then GiftCardRefused
                                else if result.RefundInProgress? || result.CreateUnexpected? then UnexpectedError
                                else DatabaseFailed)
    {
      var run := runs[r];
      var sp := Save();
      InsertOrder(r, voucher, false);
      var failed := result.CreateDatabaseError?;
      if result.InsufficientStock? || result.GiftCardNotApplicable? {
        failed := ReleaseVoucherUsage(voucher, run.email);
      }
      var outcome := if failed then DatabaseFailed
                     else if result.InsufficientStock? then OutOfStock
                     else if result.GiftCardNotApplicable? then GiftCardRefused
                     else UnexpectedError;
      RollBackAndEnd(r, outcome, sp, old(Store()));
    }

    // ----- Expiry

    /** `_expire_orders` on one batch. */
    method ExpireBatch(batch: set<OrderId>)
      requires HasStatus(Store(), batch, Unconfirmed)
      modifies this
      ensures Store() == Expire(old(Store()), batch)
    {
      var sp := Save();
      ghost var s := Store();
      orders := MarkExpired(orders, batch);
      var failed := LowerCounters(batch, s.orders);
      RemoveRecords(batch);
      if failed {
        RollBack(sp);
      }
      FailsAs(s, batch, failed);
      if !failed {
        LoweredAs(s, batch, used);
        RemovedAs(s, batch, records);
      }
    }

    /** `_bulk_release_voucher_usage` on the customer records. */
    method RemoveRecords(batch: set<OrderId>)
      modifies this`records
      ensures records == set k | k in old(records) && !ReleasedByBatch(orders, batch, k)
    {
      records := set k | k in records && !ReleasedByBatch(orders, batch, k);
    }

    /**
     * `_bulk_release_voucher_usage` on the counters, one statement for all vouchers. What no live order accounts for
     * in a counter stays; the statement fails exactly when a counter is short of the orders that expire.
     */
    method LowerCounters(batch: set<OrderId>, ghost before: map<OrderId, Order>) returns (failed: bool)
      requires HasStatus(Store().(orders := before), batch, Unconfirmed) && orders == MarkExpired(before, batch)
      modifies this`used
      ensures failed <==> exists v :: v in old(used) && Counted(old(Store()), v) &&
                            old(used)[v] + LiveOrders(orders, v) < LiveOrders(before, v)
      ensures failed ==> used == old(used)
      ensures !failed ==> Released(old(Store()), before, used)
    {
      ghost var s := Store();
      forall v ensures LiveOrders(orders, v) == LiveOrders(before, v) - |Carrying(orders, batch, v)| {
        LiveOrdersExpire(s.(orders := before), batch, v);
        SameCarriers(before, batch, v);
      }
      failed := exists v ::
        v in used && v in vouchers && vouchers[v].limit.Some? && used[v] < |Carrying(orders, batch, v)|;
      if !failed {
        used := map v | v in used ::
          if v in vouchers && vouchers[v].limit.Some? && Carrying(orders, batch, v) != {}
          then used[v] - |Carrying(orders, batch, v)| else used[v];
      }
    }
  }

  /** The two statements after a failed payment. */
  function TwoStatements(s: State, r: RunId): State
    requires r in s.runs
  {
    var paid := Pay(s, r, Declined);
    if paid.runs[r].pc.ReleasingRecord? then DropRecord(paid, r) else paid
  }

  lemma StatementsAreRelease(s: State, r: RunId)
    requires r in s.runs && (s.runs[r].slot ==> s.runs[r].voucher.Some? && Limited(s, s.runs[r].voucher.value))
    ensures TwoStatements(s, r) == Release(s, r, PaymentFailed)
  {
    match s.runs[r].voucher
    case None => assert Pay(s, r, Declined) == EndRun(s, r, PaymentFailed);
    case Some(v) =>
      assert Pay(s, r, Declined) == ReleaseCounter(s, r);
      if ReleaseFails(s, Some(v)) {
        assert ReleaseCounter(s, r) == EndRun(s, r, DatabaseFailed);
      } else {
        StatementsGiveBack(s, r, v);
      }
  }

  lemma UpdatedTwice<K, V>(m: map<K, V>, k: K, v: V, w: V)
    ensures m[k := v][k := w] == m[k := w]
  {
  }

  lemma StatementsGiveBack(s: State, r: RunId, v: VoucherCode)
    requires r in s.runs && s.runs[r].voucher == Some(v) && !ReleaseFails(s, Some(v))
    requires s.runs[r].slot ==> Limited(s, v)
    ensures ReleaseCounter(s, r).runs[r].pc.ReleasingRecord?
    ensures DropRecord(ReleaseCounter(s, r), r) == GiveBack(s, r, v, PaymentFailed)
  {
    var run := s.runs[r];
    var waiting := if Limited(s, v) then run.(pc := ReleasingRecord, slot := false) else run.(pc := ReleasingRecord);
    var done := waiting.(pc := Ended(PaymentFailed), record := false);
    UpdatedTwice(s.runs, r, waiting, done);
    if Limited(s, v) {
      assert ReleaseCounter(s, r) == s.(used := s.used[v := s.used[v] - 1], runs := s.runs[r := waiting]);
    } else {
      assert ReleaseCounter(s, r) == s.(runs := s.runs[r := waiting]);
    }
  }

  /** Every counter with a limit went down by as many live orders as `s` has less than `before`; no other changed. */
  predicate Released(s: State, before: map<OrderId, Order>, used: map<VoucherCode, nat>) {
    && used.Keys == s.used.Keys
    && forall v :: v in used ==>
         if Counted(s, v) then used[v] - LiveOrders(s.orders, v) == s.used[v] - LiveOrders(before, v)
         else used[v] == s.used[v]
  }

  lemma SameCarriers(orders: map<OrderId, Order>, batch: set<OrderId>, v: VoucherCode)
    ensures Carrying(MarkExpired(orders, batch), batch, v) == Carrying(orders, batch, v)
  {
  }

  lemma FailsAs(s: State, batch: set<OrderId>, failed: bool)
    requires HasStatus(s, batch, Unconfirmed)
    requires failed <==> exists v :: v in s.used && Counted(s, v) &&
                           s.used[v] + LiveOrders(MarkExpired(s.orders, batch), v) < LiveOrders(s.orders, v)
    ensures failed == Overdraws(s, batch)
  {
    forall v | v in s.used ensures s.used[v] + LiveOrders(MarkExpired(s.orders, batch), v) < LiveOrders(s.orders, v)
                <==> s.used[v] < |Carrying(s.orders, batch, v)|
    {
      LiveOrdersExpire(s, batch, v);
    }
  }

  lemma LoweredAs(s: State, batch: set<OrderId>, used: map<VoucherCode, nat>)
    requires HasStatus(s, batch, Unconfirmed)
    requires Released(s.(orders := MarkExpired(s.orders, batch)), s.orders, used)
    ensures used == Lowered(s, batch)
  {
    forall v | v in used ensures used[v] == Lowered(s, batch)[v] {
      LiveOrdersExpire(s, batch, v);
    }
  }

  lemma RemovedAs(s: State, batch: set<OrderId>, records: set<Record>)
    requires records == set k | k in s.records && !ReleasedByBatch(MarkExpired(s.orders, batch), batch, k)
    ensures records == set k | k in s.records && !ReleasedByBatch(s.orders, batch, k)
  {
    forall k ensures ReleasedByBatch(MarkExpired(s.orders, batch), batch, k) <==> ReleasedByBatch(s.orders, batch, k) {
      if ReleasedByBatch(s.orders, batch, k) {
        var o :| o in batch && o in s.orders && s.orders[o].voucher == Some(k.0) && s.orders[o].email == k.1;
        assert o in MarkExpired(s.orders, batch);
      }
    }
  }
}
