/**
 Why looking at a usage limit and counting a usage may be one step: `get_voucher_for_checkout` reads a voucher,
 locks its row and looks at the limit again, and the row stays locked until the transaction ends
 (saleor/checkout/utils.py, saleor/discount/utils.py).
 */
module CheckoutLock {
  import opened Wrappers
  import opened CheckoutProtocol

  /** How far a transaction is with the row of the voucher. */
  datatype Phase = HasRead | HasLocked | HasCounted

  /** The row of a voucher with a usage limit, as it is committed, and the transactions that work with it. */
  datatype Row = Row(used: nat, limit: nat, phases: map<RunId, Phase>)

  datatype Statement =
    | Read(run: RunId)           // without a lock
    | LockAndRead(run: RunId)    // `select_for_update`
    | Count(run: RunId)          // `used = used + 1`
    | Commit(run: RunId)
    | Undo(run: RunId)
    | GiveBack(count: nat)       // a release, or the expiry of orders

  predicate Is(row: Row, r: RunId, phase: Phase) {
    r in row.phases && row.phases[r] == phase
  }

  predicate Free(row: Row) {
    forall r :: r in row.phases ==> row.phases[r] == HasRead
  }

  predicate NoneCounted(row: Row) {
    forall r :: r in row.phases ==> row.phases[r] != HasCounted
  }

  function Enter(row: Row, r: RunId, phase: Phase): Row {
    row.(phases := row.phases[r := phase])
  }

  function Leave(row: Row, r: RunId): Row {
    row.(phases := row.phases - {r})
  }

  /** One statement; a statement that has to wait for the row, or is not the next one, changes nothing. With
      `locking` false `select_for_update` is left out, and only the update itself locks the row. */
  function Execute(row: Row, e: Statement, locking: bool): Row {
    match e
    case Read(r) => if r in row.phases || row.used >= row.limit then row else Enter(row, r, HasRead)
    case LockAndRead(r) =>
      if !Is(row, r, HasRead) then row
      else if !locking then Enter(row, r, HasLocked)
      else if !Free(row) then row
      else if row.used >= row.limit then Leave(row, r)
      else Enter(row, r, HasLocked)
    case Count(r) => if Is(row, r, HasLocked) && NoneCounted(row) then Enter(row, r, HasCounted) else row
    case Commit(r) => if Is(row, r, HasCounted) then Leave(row, r).(used := row.used + 1) else Leave(row, r)
    case Undo(r) => Leave(row, r)
    case GiveBack(count) =>
      if NoneCounted(row) && (locking ==> Free(row)) && count <= row.used then row.(used := row.used - count) else row
  }

  function Run(row: Row, statements: seq<Statement>, locking: bool): Row {
    if statements == [] then row
    else Execute(Run(row, statements[..|statements| - 1], locking), statements[|statements| - 1], locking)
  }

  /** One transaction at most is past the lock, and it still finds room below the limit. */
  predicate Guarded(row: Row) {
    && row.used <= row.limit
    && (forall r, p :: r in row.phases && p in row.phases && row.phases[r] != HasRead && row.phases[p] != HasRead ==>
        r == p)
    && (!Free(row) ==> row.used < row.limit)
  }

  lemma ExecuteKeepsGuarded(row: Row, e: Statement)
    requires Guarded(row)
    ensures Guarded(Execute(row, e, true))
  {
    if e.Commit? && Is(row, e.run, HasCounted) {
      assert Free(Leave(row, e.run));
    }
  }

  lemma {:induction false} RunKeepsGuarded(row: Row, statements: seq<Statement>)
    requires Guarded(row)
    ensures Guarded(Run(row, statements, true))
  {
    if statements != [] {
      RunKeepsGuarded(row, statements[..|statements| - 1]);
      ExecuteKeepsGuarded(Run(row, statements[..|statements| - 1], true), statements[|statements| - 1]);
    }
  }

  /** The committed counter and the usage that is counted but not committed stay within the limit. */
  lemma LimitHoldsUnderLocks(row: Row, statements: seq<Statement>)
    requires Guarded(row)
    ensures
      var now := Run(row, statements, true);
      now.limit == row.limit && now.used + (if NoneCounted(now) then 0 else 1) <= row.limit
  {
    RunKeepsGuarded(row, statements);
    LimitStays(row, statements, true);
    var now := Run(row, statements, true);
    assert !NoneCounted(now) ==> !Free(now);
  }

  lemma {:induction false} LimitStays(row: Row, statements: seq<Statement>, locking: bool)
    ensures Run(row, statements, locking).limit == row.limit
  {
    if statements != [] {
      LimitStays(row, statements[..|statements| - 1], locking);
    }
  }

  // ----- The protocol counts in one step

  datatype Step = CountBelowLimit | Lower(count: nat)

  /** The counter after steps that look at it and change it at once, if none of them is refused. */
  function Counter(used: nat, limit: nat, steps: seq<Step>): Option<nat> {
    if steps == [] then Some(used)
    else
      var now := Counter(used, limit, steps[..|steps| - 1]);
      if now.None? then None else OneStep(now.value, limit, steps[|steps| - 1])
  }

  function OneStep(used: nat, limit: nat, step: Step): Option<nat> {
    match step
    case CountBelowLimit => if used < limit then Some(used + 1) else None
    case Lower(count) => if count <= used then Some(used - count) else None
  }

  lemma CounterOne(used: nat, limit: nat, steps: seq<Step>, step: Step)
    requires Counter(used, limit, steps).Some?
    ensures Counter(used, limit, steps + [step]) == OneStep(Counter(used, limit, steps).value, limit, step)
  {
    assert (steps + [step])[..|steps|] == steps;
  }

  /** What a statement does to the committed counter. */
  function Effect(row: Row, e: Statement): seq<Step> {
    if e.Commit? && Is(row, e.run, HasCounted) then [CountBelowLimit]
    else if e.GiveBack? && Free(row) && e.count <= row.used then [Lower(e.count)]
    else []
  }

  function Effects(row: Row, statements: seq<Statement>): seq<Step> {
    if statements == [] then []
    else
      var before := statements[..|statements| - 1];
      Effects(row, before) + Effect(Run(row, before, true), statements[|statements| - 1])
  }

  lemma EffectIsStep(row: Row, e: Statement)
    requires Guarded(row)
    ensures
      var effect, after := Effect(row, e), Execute(row, e, true).used;
      if effect == [] then after == row.used
      else |effect| == 1 && OneStep(row.used, row.limit, effect[0]) == Some(after)
  {
    if e.Commit? && Is(row, e.run, HasCounted) {
      assert !Free(row);
    }
  }

  lemma CounterGoesOn(used: nat, limit: nat, steps: seq<Step>, now: nat, effect: seq<Step>, after: nat)
    requires Counter(used, limit, steps) == Some(now)
    requires if effect == [] then after == now else |effect| == 1 && OneStep(now, limit, effect[0]) == Some(after)
    ensures Counter(used, limit, steps + effect) == Some(after)
  {
    if effect == [] {
      assert steps + effect == steps;
    } else {
      CounterOne(used, limit, steps, effect[0]);
      assert effect == [effect[0]];
    }
  }

  /**
   * In every interleaving the committed counter is what steps give that look at the limit and count at once, and none
   * of them finds the limit reached: what a transaction saw under its lock is still so when it commits.
   */
  lemma {:induction false} LockedIsAtomic(row: Row, statements: seq<Statement>)
    requires Guarded(row)
    ensures Counter(row.used, row.limit, Effects(row, statements)) == Some(Run(row, statements, true).used)
  {
    if statements != [] {
      var before := statements[..|statements| - 1];
      LockedIsAtomic(row, before);
      RunKeepsGuarded(row, before);
      LimitStays(row, before, true);
      var was, e := Run(row, before, true), statements[|statements| - 1];
      EffectIsStep(was, e);
      CounterGoesOn(row.used, row.limit, Effects(row, before), was.used, Effect(was, e), Execute(was, e, true).used);
    }
  }

  // ----- Without the lock

  lemma RunOne(row: Row, statements: seq<Statement>, e: Statement, locking: bool)
    ensures Run(row, statements + [e], locking) == Execute(Run(row, statements, locking), e, locking)
  {
    assert (statements + [e])[..|statements|] == statements;
  }

  /** Two transactions that look at the limit before either counts. */
  function Overlapping(): seq<Statement> {
    [] + [Read(0)] + [Read(1)] + [LockAndRead(0)] + [LockAndRead(1)] + [Count(0)] + [Commit(0)] + [Count(1)]
        + [Commit(1)]
  }

  lemma RunOverlapping(locking: bool)
    ensures
      var two := Row(0, 1, map[0 := HasRead, 1 := HasRead]);
      var locked := Execute(Execute(two, LockAndRead(0), locking), LockAndRead(1), locking);
      var first := Execute(Execute(locked, Count(0), locking), Commit(0), locking);
      Run(Row(0, 1, map[]), Overlapping(), locking) == Execute(Execute(first, Count(1), locking), Commit(1), locking)
  {
    var row := Row(0, 1, map[]);
    var s2 := [] + [Read(0)] + [Read(1)];
    RunOne(row, [], Read(0), locking);
    RunOne(row, [] + [Read(0)], Read(1), locking);
    RunOne(row, s2, LockAndRead(0), locking);
    RunOne(row, s2 + [LockAndRead(0)], LockAndRead(1), locking);
    var s4 := s2 + [LockAndRead(0)] + [LockAndRead(1)];
    RunOne(row, s4, Count(0), locking);
    RunOne(row, s4 + [Count(0)], Commit(0), locking);
    RunOne(row, s4 + [Count(0)] + [Commit(0)], Count(1), locking);
    RunOne(row, s4 + [Count(0)] + [Commit(0)] + [Count(1)], Commit(1), locking);
  }

  lemma BothCount()
    ensures Run(Row(0, 1, map[]), Overlapping(), false).used == 2
  {
    RunOverlapping(false);
    var locked := Row(0, 1, map[0 := HasLocked, 1 := HasLocked]);
    var two := Row(0, 1, map[0 := HasRead, 1 := HasRead]);
    assert Execute(Execute(two, LockAndRead(0), false), LockAndRead(1), false) == locked;
    assert Execute(Execute(locked, Count(0), false), Commit(0), false) == Row(1, 1, map[1 := HasLocked]);
  }

  lemma OneWaits()
    ensures Run(Row(0, 1, map[]), Overlapping(), true).used == 1
  {
    RunOverlapping(true);
    var locked := Row(0, 1, map[0 := HasLocked, 1 := HasRead]);
    var two := Row(0, 1, map[0 := HasRead, 1 := HasRead]);
    assert Execute(Execute(two, LockAndRead(0), true), LockAndRead(1), true) == locked;
    assert Execute(Execute(locked, Count(0), true), Commit(0), true) == Row(1, 1, map[1 := HasRead]);
  }

  /** Without the lock both transactions pass a limit of one; with it the second one waits and does not count. */
  lemma LimitNeedsTheLock()
    ensures Run(Row(0, 1, map[]), Overlapping(), false).used == 2
    ensures Run(Row(0, 1, map[]), Overlapping(), true).used == 1
  {
    BothCount();
    OneWaits();
  }
}
