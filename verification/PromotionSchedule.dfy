/**
 Notifications about starting and ending promotions (saleor/discount/tasks.py) and the schedule that
 wakes the task (saleor/core/schedules.py). One toggle happens at one instant.
 */
module PromotionSchedule {

  import opened Wrappers

  type Time = int

  /** A row of the promotion table; `last` is `last_notification_scheduled_at`. */
  datatype Promotion = Promotion(start: Time, end: Option<Time>, last: Option<Time>)

  datatype Edge = Start | End

  /** A `promotion_started` or `promotion_ended` call of the plugins manager. */
  datatype Notice = Notice(edge: Edge, promotion: nat, at: Time)

  function Boundary(p: Promotion, edge: Edge): Option<Time> {
    if edge.Start? then Some(p.start) else p.end
  }

  predicate Unnotified(p: Promotion, boundary: Time) {
    p.last.None? || p.last.value < boundary
  }

  /** The filters of `get_starting_promotions` and `get_ending_promotions`. */
  predicate Due(p: Promotion, edge: Edge, now: Time) {
    var b := Boundary(p, edge);
    b.Some? && Unnotified(p, b.value) && b.value <= now
  }

  predicate AnyDue(rows: seq<Promotion>, edge: Edge, now: Time) {
    exists i :: 0 <= i < |rows| && Due(rows[i], edge, now)
  }

  function ToggleRow(p: Promotion, now: Time): Promotion {
    if Due(p, Start, now) || Due(p, End, now) then p.(last := Some(now)) else p
  }

  /** The table after one toggle. */
  function Toggle(rows: seq<Promotion>, now: Time): (r: seq<Promotion>)
    ensures |r| == |rows|
    ensures forall i :: 0 <= i < |r| ==> r[i] == ToggleRow(rows[i], now)
  {
    seq(|rows|, i requires 0 <= i < |rows| => ToggleRow(rows[i], now))
  }

  /** The notices of one edge that one toggle sends about the first `n` promotions. */
  function Sent(rows: seq<Promotion>, edge: Edge, now: Time, n: nat): seq<Notice>
    requires n <= |rows|
  {
    if n == 0 then []
    else Sent(rows, edge, now, n - 1) + (if Due(rows[n - 1], edge, now) then [Notice(edge, n - 1, now)] else [])
  }

  /** The notices of one toggle. */
  function Notices(rows: seq<Promotion>, now: Time): seq<Notice> {
    Sent(rows, Start, now, |rows|) + Sent(rows, End, now, |rows|)
  }

  /** The tables of the promotions and of the notices sent. */
  class PromotionTable {
    var rows: seq<Promotion>
    var log: seq<Notice>

    /** One of the two loops that call the plugins manager. */
    method Send(edge: Edge, due: set<nat>, now: Time)
      requires forall i :: 0 <= i < |rows| ==> (i in due <==> Due(rows[i], edge, now))
      modifies this`log
      ensures log == old(log) + Sent(rows, edge, now, |rows|)
    {
      for i := 0 to |rows|
        invariant log == old(log) + Sent(rows, edge, now, i)
      {
        if i in due {
          log := log + [Notice(edge, i, now)];
        }
      }
    }

    /** The update of `last_notification_scheduled_at`. */
    method Mark(due: set<nat>, now: Time)
      requires forall i :: 0 <= i < |rows| ==> (i in due <==> Due(rows[i], Start, now) || Due(rows[i], End, now))
      modifies this`rows
      ensures rows == Toggle(old(rows), now)
    {
      for i := 0 to |rows|
        invariant |rows| == |old(rows)|
        invariant forall k :: 0 <= k < i ==> rows[k] == ToggleRow(old(rows)[k], now)
        invariant forall k :: i <= k < |rows| ==> rows[k] == old(rows)[k]
      {
        if i in due {
          rows := rows[i := rows[i].(last := Some(now))];
        }
      }
    }

    /** `handle_promotion_toggle`. */
    method HandlePromotionToggle(now: Time)
      modifies this
      ensures rows == Toggle(old(rows), now)
      ensures log == old(log) + Notices(old(rows), now)
    {
      var starting := set i | 0 <= i < |rows| && Due(rows[i], Start, now);
      var ending := set i | 0 <= i < |rows| && Due(rows[i], End, now);
      if starting == {} && ending == {} {
        forall i | 0 <= i < |rows| ensures !Due(rows[i], Start, now) && !Due(rows[i], End, now) {
          assert i !in starting && i !in ending;
        }
        NothingDue(rows, now, |rows|);
        assert Toggle(rows, now) == rows;
        return;
      }
      Send(Start, starting, now);
      Send(End, ending, now);
      Mark(starting + ending, now);
    }
  }

  lemma {:induction false} NothingDue(rows: seq<Promotion>, now: Time, n: nat)
    requires n <= |rows| && forall i :: 0 <= i < n ==> !Due(rows[i], Start, now) && !Due(rows[i], End, now)
    ensures Sent(rows, Start, now, n) == [] && Sent(rows, End, now, n) == []
  {
    if n > 0 {
      NothingDue(rows, now, n - 1);
    }
  }

  // ----- Whole runs

  predicate NonDecreasing(times: seq<Time>) {
    forall i, j :: 0 <= i <= j < |times| ==> times[i] <= times[j]
  }

  function RunRows(rows: seq<Promotion>, times: seq<Time>): (r: seq<Promotion>)
    ensures |r| == |rows|
  {
    if times == [] then rows
    else Toggle(RunRows(rows, times[..|times| - 1]), times[|times| - 1])
  }

  function RunLog(rows: seq<Promotion>, times: seq<Time>): seq<Notice> {
    if times == [] then []
    else
      var before := times[..|times| - 1];
      RunLog(rows, before) + Notices(RunRows(rows, before), times[|times| - 1])
  }

  /** How often a promotion's edge was announced. */
  function Announced(log: seq<Notice>, edge: Edge, promotion: nat): nat {
    if log == [] then 0
    else
      var n := log[|log| - 1];
      Announced(log[..|log| - 1], edge, promotion) + if n.edge == edge && n.promotion == promotion then 1 else 0
  }

  lemma {:induction false} AnnouncedConcat(a: seq<Notice>, b: seq<Notice>, edge: Edge, id: nat)
    ensures Announced(a + b, edge, id) == Announced(a, edge, id) + Announced(b, edge, id)
  {
    if b == [] {
      assert a + b == a;
    } else {
      assert (a + b)[..|a + b| - 1] == a + b[..|b| - 1];
      AnnouncedConcat(a, b[..|b| - 1], edge, id);
    }
  }

  lemma AnnouncedMore(log: seq<Notice>, n: Notice, edge: Edge, id: nat)
    ensures Announced(log + [n], edge, id)
         == Announced(log, edge, id) + if n.edge == edge && n.promotion == id then 1 else 0
  {
    assert (log + [n])[..|log + [n]| - 1] == log;
  }

  lemma {:induction false} AnnouncedSent(rows: seq<Promotion>, sent: Edge, now: Time, n: nat, edge: Edge, id: nat)
    requires n <= |rows|
    ensures Announced(Sent(rows, sent, now, n), edge, id)
            == if sent == edge && id < n && Due(rows[id], edge, now) then 1 else 0
  {
    if n > 0 {
      AnnouncedSent(rows, sent, now, n - 1, edge, id);
      if Due(rows[n - 1], sent, now) {
        AnnouncedMore(Sent(rows, sent, now, n - 1), Notice(sent, n - 1, now), edge, id);
      } else {
        assert Sent(rows, sent, now, n) == Sent(rows, sent, now, n - 1);
      }
    }
  }

  lemma AnnouncedByToggle(rows: seq<Promotion>, log: seq<Notice>, now: Time, id: nat, edge: Edge)
    requires id < |rows|
    ensures Announced(log + Notices(rows, now), edge, id)
         == Announced(log, edge, id) + if Due(rows[id], edge, now) then 1 else 0
  {
    AnnouncedConcat(log, Notices(rows, now), edge, id);
    AnnouncedConcat(Sent(rows, Start, now, |rows|), Sent(rows, End, now, |rows|), edge, id);
    AnnouncedSent(rows, Start, now, |rows|, edge, id);
    AnnouncedSent(rows, End, now, |rows|, edge, id);
  }

  /** What a run keeps for one edge: what was announced, and what the row remembers of it. */
  lemma {:induction false} RunKeeps(rows: seq<Promotion>, times: seq<Time>, id: nat, edge: Edge)
    requires NonDecreasing(times) && times != [] && id < |rows| && rows[id].last.None?
    ensures var now := times[|times| - 1];
            var row := RunRows(rows, times)[id];
            var b := Boundary(rows[id], edge);
            && Boundary(row, edge) == b
            && (row.last.Some? ==> row.last.value <= now)
            && (b.Some? && b.value <= now ==> !Unnotified(row, b.value))
            && Announced(RunLog(rows, times), edge, id) == if b.Some? && b.value <= now then 1 else 0
  {
    var before, now := times[..|times| - 1], times[|times| - 1];
    if before != [] {
      RunKeeps(rows, before, id, edge);
      assert before[|before| - 1] <= now;
    }
    var was := RunRows(rows, before);
    AnnouncedByToggle(was, RunLog(rows, before), now, id, edge);
  }

  /** After any run of toggles under a clock that does not go back, each start and each end has been
      announced exactly once if it is not after the last toggle, and otherwise never. */
  lemma AnnouncedExactlyOnce(rows: seq<Promotion>, times: seq<Time>, id: nat)
    requires NonDecreasing(times) && times != [] && id < |rows| && rows[id].last.None?
    ensures var now, p, log := times[|times| - 1], rows[id], RunLog(rows, times);
            && Announced(log, Start, id) == (if p.start <= now then 1 else 0)
            && Announced(log, End, id) == (if p.end.Some? && p.end.value <= now then 1 else 0)
  {
    RunKeeps(rows, times, id, Start);
    RunKeeps(rows, times, id, End);
  }

  lemma {:induction false} SentWhenDue(rows: seq<Promotion>, edge: Edge, now: Time, n: nat, notice: Notice)
    requires n <= |rows| && notice in Sent(rows, edge, now, n)
    ensures notice.edge == edge && notice.at == now && notice.promotion < n && Due(rows[notice.promotion], edge, now)
  {
    if notice in Sent(rows, edge, now, n - 1) {
      SentWhenDue(rows, edge, now, n - 1, notice);
    }
  }

  /** Every notice is sent by the first toggle that is not before its boundary. */
  lemma {:induction false} AnnouncedAtFirstChance(rows: seq<Promotion>, times: seq<Time>, notice: Notice)
      returns (k: nat)
    requires NonDecreasing(times) && notice in RunLog(rows, times)
    requires forall p :: p in rows ==> p.last.None?
    ensures k < |times| && notice.at == times[k] && notice.promotion < |rows|
    ensures var b := Boundary(rows[notice.promotion], notice.edge);
            b.Some? && b.value <= times[k] && forall j :: 0 <= j < k ==> times[j] < b.value
  {
    var before, now := times[..|times| - 1], times[|times| - 1];
    if notice in RunLog(rows, before) {
      k := AnnouncedAtFirstChance(rows, before, notice);
    } else {
      k := |times| - 1;
      var was := RunRows(rows, before);
      SentWhenDue(was, notice.edge, now, |was|, notice) by {
        NoticesSplit(was, now, notice);
      }
      var id := notice.promotion;
      if before != [] {
        RunKeeps(rows, before, id, notice.edge);
        var b := Boundary(rows[id], notice.edge).value;
        assert before[|before| - 1] < b;
        assert forall j :: 0 <= j < k ==> times[j] == before[j];
      }
    }
  }

  lemma NoticesSplit(rows: seq<Promotion>, now: Time, notice: Notice)
    requires notice in Notices(rows, now)
    ensures notice in Sent(rows, notice.edge, now, |rows|)
  {
    if notice in Sent(rows, Start, now, |rows|) {
      SentWhenDue(rows, Start, now, |rows|, notice);
    } else {
      SentWhenDue(rows, End, now, |rows|, notice);
    }
  }

  // ----- The schedule

  /** A boundary still ahead that no notice covers. */
  predicate Upcoming(rows: seq<Promotion>, i: nat, edge: Edge, now: Time) {
    i < |rows|
    && var b := Boundary(rows[i], edge);
       b.Some? && Unnotified(rows[i], b.value) && b.value > now
  }

  predicate IsNearest(rows: seq<Promotion>, edge: Edge, now: Time, n: nat, nearest: Option<Time>)
    requires n <= |rows|
  {
    && (nearest.None? ==> forall i :: 0 <= i < n ==> !Upcoming(rows, i, edge, now))
    && (nearest.Some? ==>
          && (exists i :: 0 <= i < n && Upcoming(rows, i, edge, now) && Boundary(rows[i], edge) == nearest)
          && forall i :: 0 <= i < n && Upcoming(rows, i, edge, now) ==> nearest.value <= Boundary(rows[i], edge).value)
  }

  /** `filter(…).order_by(…).first()`. */
  method Nearest(rows: seq<Promotion>, edge: Edge, now: Time) returns (nearest: Option<Time>)
    ensures IsNearest(rows, edge, now, |rows|, nearest)
  {
    nearest := None;
    for i := 0 to |rows|
      invariant IsNearest(rows, edge, now, i, nearest)
    {
      if Upcoming(rows, i, edge, now) {
        var b := Boundary(rows[i], edge);
        if nearest.None? || b.value < nearest.value {
          nearest := b;
        }
      }
    }
  }

  /**
   * The delay never passes over a boundary that still has to be announced, and is the longest such delay within the
   * initial interval.
   */
  predicate IsDelay(rows: seq<Promotion>, now: Time, delay: Time, initial: Time) {
    && delay <= initial
    && (forall i, edge :: 0 <= i < |rows| && Ahead(rows[i], edge, now) ==>
        now + delay <= Boundary(rows[i], edge).value)
    && (delay == initial || exists i, edge ::
          0 <= i < |rows| && Ahead(rows[i], edge, now) && now + delay == Boundary(rows[i], edge).value)
  }

  /** A boundary after `now` that the last notice does not reach. */
  predicate Ahead(p: Promotion, edge: Edge, now: Time) {
    match Boundary(p, edge)
    case None => false
    case Some(b) => now < b && match p.last case None => true case Some(last) => last < b
  }

  class PromotionWebhookSchedule {
    const initial: Time
    var nextRun: Time

    constructor (initial: Time)
      ensures this.initial == initial && nextRun == initial
    {
      this.initial := initial;
      this.nextRun := initial;
    }

    /** `is_due`. */
    method IsDue(rows: seq<Promotion>, now: Time, lastRunAt: Time) returns (due: bool, delay: Time)
      modifies this
      ensures due <==> lastRunAt + old(nextRun) <= now && (AnyDue(rows, Start, now) || AnyDue(rows, End, now))
      ensures nextRun == delay && IsDelay(rows, now, delay, initial)
      ensures initial > 0 ==> delay > 0
    {
      var estimate := lastRunAt + nextRun - now;
      var remaining := if estimate > 0 then estimate else 0;
      due := remaining == 0 && (AnyDue(rows, Start, now) || AnyDue(rows, End, now));
      var nearestStart := Nearest(rows, Start, now);
      var nearestEnd := Nearest(rows, End, now);
      var upcoming: Time;
      if nearestStart.Some? && nearestEnd.Some? {
        upcoming := if nearestEnd.value < nearestStart.value then nearestEnd.value else nearestStart.value;
      } else if nearestStart.Some? {
        upcoming := nearestStart.value;
      } else if nearestEnd.Some? {
        upcoming := nearestEnd.value;
      } else {
        upcoming := now + initial;
      }
      forall i, edge | 0 <= i < |rows| ensures Upcoming(rows, i, edge, now) <==> Ahead(rows[i], edge, now) {
      }
      nextRun := if upcoming - now <= initial then upcoming - now else initial;
      delay := nextRun;
    }
  }

  // ----- The schedule and the task together

  /** What the scheduler and the task share: the tables, when the task ran last, and the delay of the schedule. */
  datatype Beat = Beat(rows: seq<Promotion>, log: seq<Notice>, lastRun: Time, nextRun: Time)

  predicate Ready(b: Beat, now: Time) {
    b.lastRun + b.nextRun <= now
  }

  predicate IsDueAt(b: Beat, now: Time) {
    Ready(b, now) && (AnyDue(b.rows, Start, now) || AnyDue(b.rows, End, now))
  }

  /** The schedule is asked once, and the task runs when it is due. */
  predicate IsBeat(was: Beat, now: Time, next: Beat, initial: Time) {
    && IsDelay(was.rows, now, next.nextRun, initial)
    && next.rows == (if IsDueAt(was, now) then Toggle(was.rows, now) else was.rows)
    && next.log == (if IsDueAt(was, now) then was.log + Notices(was.rows, now) else was.log)
    && next.lastRun == (if IsDueAt(was, now) then now else was.lastRun)
  }

  /** One beat of the scheduler. */
  method Tick(table: PromotionTable, schedule: PromotionWebhookSchedule, now: Time, lastRunAt: Time)
    returns (ranAt: Time)
    modifies table, schedule
    ensures IsBeat(old(Beat(table.rows, table.log, lastRunAt, schedule.nextRun)), now,
                   Beat(table.rows, table.log, ranAt, schedule.nextRun), schedule.initial)
  {
    ranAt := lastRunAt;
    var due, delay := schedule.IsDue(table.rows, now, lastRunAt);
    if due {
      table.HandlePromotionToggle(now);
      ranAt := now;
    }
  }

  /** Calls of the schedule under a clock that does not go back, whether after the delay, later or earlier. */
  predicate Calls(states: seq<Beat>, times: seq<Time>, initial: Time) {
    && |states| == |times| + 1 && NonDecreasing(times)
    && (times != [] ==> states[0].lastRun <= times[0])
    && forall k :: 0 <= k < |times| ==> IsBeat(states[k], times[k], states[k + 1], initial)
  }

  /** A promotion that was not announced before. */
  predicate IsNew(states: seq<Beat>, id: nat) {
    |states| > 0 && states[0].log == [] && id < |states[0].rows| && states[0].rows[id].last.None?
  }

  /** What a beat does for one promotion. */
  lemma BeatOfRow(was: Beat, now: Time, next: Beat, initial: Time, id: nat, edge: Edge)
    requires IsBeat(was, now, next, initial) && id < |was.rows|
    ensures id < |next.rows|
    ensures next.rows[id] == if IsDueAt(was, now) then ToggleRow(was.rows[id], now) else was.rows[id]
    ensures Announced(next.log, edge, id)
         == Announced(was.log, edge, id) + if IsDueAt(was, now) && Due(was.rows[id], edge, now) then 1 else 0
  {
    AnnouncedByToggle(was.rows, was.log, now, id, edge);
  }

  /**
   * Where a promotion stands at `now`, when the first call was at `first`: what its row remembers, and whether the edge
   * with boundary `b` was announced.
   */
  predicate Stands(s: Beat, first: Time, now: Time, id: nat, edge: Edge, b: Option<Time>) {
    && s.lastRun <= now
    && id < |s.rows| && RowStands(s.rows[id], Announced(s.log, edge, id), first, now, edge, b)
  }

  predicate RowStands(row: Promotion, announced: nat, first: Time, now: Time, edge: Edge, b: Option<Time>) {
    && Boundary(row, edge) == b
    && (row.last.Some? ==> row.last.value <= now)
    && (b.Some? && first < b.value <= now ==> !Unnotified(row, b.value))
    && announced == if b.Some? && b.value <= now && !Unnotified(row, b.value) then 1 else 0
  }

  predicate Standing(states: seq<Beat>, times: seq<Time>, n: nat, id: nat, edge: Edge)
    requires 0 < n <= |times| && |states| == |times| + 1 && IsNew(states, id)
  {
    Stands(states[n], times[0], times[n - 1], id, edge, Boundary(states[0].rows[id], edge))
  }

  lemma ToggledRow(row: Promotion, now: Time, edge: Edge, b: Option<Time>)
    requires Boundary(row, edge) == b && (row.last.Some? ==> row.last.value <= now)
    ensures
      var next := ToggleRow(row, now);
      && Boundary(next, edge) == b && (next.last.Some? ==> next.last.value <= now)
      && (b.Some? && b.value <= now ==> !Unnotified(next, b.value))
    ensures Due(row, edge, now) <==> b.Some? && b.value <= now && Unnotified(row, b.value)
  {
  }

  lemma ToggledRowStands(row: Promotion, announced: nat, first: Time, before: Time, now: Time, edge: Edge,
                         b: Option<Time>)
    requires RowStands(row, announced, first, before, edge, b) && before <= now
    ensures RowStands(ToggleRow(row, now), announced + if Due(row, edge, now) then 1 else 0, first, now, edge, b)
  {
    ToggledRow(row, now, edge, b);
  }

  lemma SameRowStands(row: Promotion, announced: nat, first: Time, before: Time, now: Time, edge: Edge,
                      b: Option<Time>)
    requires RowStands(row, announced, first, before, edge, b) && before <= now
    requires !(b.Some? && before < b.value <= now)
    ensures RowStands(row, announced, first, now, edge, b)
  {
  }

  lemma StandsOn(was: Beat, first: Time, before: Time, now: Time, next: Beat, initial: Time, id: nat, edge: Edge,
                 b: Option<Time>)
    requires Stands(was, first, before, id, edge, b) && IsBeat(was, now, next, initial) && before <= now
    requires b.Some? && before < b.value <= now ==> IsDueAt(was, now)
    ensures Stands(next, first, now, id, edge, b)
  {
    BeatOfRow(was, now, next, initial, id, edge);
    var row, announced := was.rows[id], Announced(was.log, edge, id);
    if IsDueAt(was, now) {
      ToggledRowStands(row, announced, first, before, now, edge, b);
    } else {
      SameRowStands(row, announced, first, before, now, edge, b);
    }
  }

  /** The delay that a call returns does not pass over a boundary ahead of it that no notice covers. */
  lemma DelayStopsAtBoundary(was: Beat, now: Time, next: Beat, initial: Time, id: nat, edge: Edge)
    requires IsBeat(was, now, next, initial) && id < |was.rows| && Boundary(was.rows[id], edge).Some?
    requires now < Boundary(was.rows[id], edge).value && (was.rows[id].last.Some? ==> was.rows[id].last.value <= now)
    ensures now + next.nextRun <= Boundary(was.rows[id], edge).value
  {
    assert Upcoming(was.rows, id, edge, now);
  }

  lemma FirstStands(was: Beat, now: Time, next: Beat, initial: Time, id: nat, edge: Edge)
    requires id < |was.rows| && was.rows[id].last.None? && was.log == [] && was.lastRun <= now
    requires IsBeat(was, now, next, initial)
    ensures Stands(next, now, now, id, edge, Boundary(was.rows[id], edge))
  {
    BeatOfRow(was, now, next, initial, id, edge);
    assert next.rows[id] == was.rows[id] || next.rows[id] == was.rows[id].(last := Some(now));
  }

  lemma FirstStanding(states: seq<Beat>, times: seq<Time>, initial: Time, id: nat, edge: Edge)
    requires Calls(states, times, initial) && times != [] && IsNew(states, id)
    ensures Standing(states, times, 1, id, edge)
  {
    assert IsBeat(states[0], times[0], states[1], initial);
    FirstStands(states[0], times[0], states[1], initial, id, edge);
  }

  /** A boundary between two calls is found by the second, which is not too early for the schedule. */
  lemma FoundByNextCall(states: seq<Beat>, times: seq<Time>, initial: Time, k: nat, id: nat, edge: Edge)
    requires Calls(states, times, initial) && k + 1 < |times| && IsNew(states, id)
    requires Standing(states, times, k + 1, id, edge) && (k > 0 ==> Standing(states, times, k, id, edge))
    requires Boundary(states[0].rows[id], edge).Some?
    requires times[k] < Boundary(states[0].rows[id], edge).value <= times[k + 1]
    ensures times[k] + states[k + 1].nextRun <= Boundary(states[0].rows[id], edge).value
    ensures IsDueAt(states[k + 1], times[k + 1]) && Due(states[k + 1].rows[id], edge, times[k + 1])
  {
    assert k > 0 ==> times[k - 1] <= times[k];
    assert IsBeat(states[k], times[k], states[k + 1], initial);
    DelayStopsAtBoundary(states[k], times[k], states[k + 1], initial, id, edge);
    var row := states[k + 1].rows[id];
    assert Due(row, edge, times[k + 1]);
    assert AnyDue(states[k + 1].rows, edge, times[k + 1]);
  }

  lemma {:induction false} NextStanding(states: seq<Beat>, times: seq<Time>, initial: Time, k: nat, id: nat, edge: Edge)
    requires Calls(states, times, initial) && k + 1 < |times| && IsNew(states, id)
    requires Standing(states, times, k + 1, id, edge) && (k > 0 ==> Standing(states, times, k, id, edge))
    ensures Standing(states, times, k + 2, id, edge)
  {
    var b := Boundary(states[0].rows[id], edge);
    assert times[k] <= times[k + 1];
    assert IsBeat(states[k + 1], times[k + 1], states[k + 2], initial);
    if b.Some? && times[k] < b.value <= times[k + 1] {
      FoundByNextCall(states, times, initial, k, id, edge);
    }
    StandsOn(states[k + 1], times[0], times[k], times[k + 1], states[k + 2], initial, id, edge, b);
  }

  lemma {:induction false} EveryStanding(states: seq<Beat>, times: seq<Time>, initial: Time, n: nat, id: nat,
                                         edge: Edge)
    requires Calls(states, times, initial) && 0 < n <= |times| && IsNew(states, id)
    ensures Standing(states, times, n, id, edge)
  {
    if n == 1 {
      FirstStanding(states, times, initial, id, edge);
    } else {
      EveryStanding(states, times, initial, n - 1, id, edge);
      if n > 2 {
        EveryStanding(states, times, initial, n - 2, id, edge);
      }
      NextStanding(states, times, initial, n - 2, id, edge);
    }
  }

  /** The boundary is covered, or the task has not run since the start and will when the first interval has passed. */
  predicate Waits(s: Beat, start: Time, id: nat, b: Time, initial: Time)
    requires id < |s.rows|
  {
    s.nextRun <= initial && (s.lastRun == start || !Unnotified(s.rows[id], b))
  }

  lemma WaitsOn(was: Beat, now: Time, next: Beat, initial: Time, start: Time, id: nat, edge: Edge, b: Time)
    requires IsBeat(was, now, next, initial) && id < |was.rows| == |next.rows|
    requires Boundary(was.rows[id], edge) == Some(b) && b <= now && Waits(was, start, id, b, initial)
    ensures Waits(next, start, id, b, initial)
    ensures start + initial <= now ==> !Unnotified(next.rows[id], b)
  {
    BeatOfRow(was, now, next, initial, id, edge);
    if Unnotified(was.rows[id], b) {
      assert Due(was.rows[id], edge, now);
      assert AnyDue(was.rows, edge, now);
    }
  }

  lemma {:induction false} OverdueWaits(states: seq<Beat>, times: seq<Time>, initial: Time, n: nat, id: nat, edge: Edge)
    requires Calls(states, times, initial) && 0 < n <= |times| && IsNew(states, id) && states[0].nextRun <= initial
    requires Boundary(states[0].rows[id], edge).Some? && Boundary(states[0].rows[id], edge).value <= times[0]
    ensures id < |states[n].rows|
    ensures Waits(states[n], states[0].lastRun, id, Boundary(states[0].rows[id], edge).value, initial)
    ensures states[0].lastRun + initial <= times[n - 1] ==>
      !Unnotified(states[n].rows[id], Boundary(states[0].rows[id], edge).value)
  {
    var b, start := Boundary(states[0].rows[id], edge).value, states[0].lastRun;
    assert IsBeat(states[n - 1], times[n - 1], states[n], initial);
    assert times[0] <= times[n - 1];
    if n > 1 {
      OverdueWaits(states, times, initial, n - 1, id, edge);
      EveryStanding(states, times, initial, n - 1, id, edge);
    }
    BeatOfRow(states[n - 1], times[n - 1], states[n], initial, id, edge);
    WaitsOn(states[n - 1], times[n - 1], states[n], initial, start, id, edge, b);
  }

  /**
   * Nothing is announced twice or too early. Every boundary after the first call has been announced once when the last
   * call is not before it, and one that was overdue at the first call when a first interval has passed by the last.
   */
  lemma LoopAnnouncesOnce(states: seq<Beat>, times: seq<Time>, initial: Time, id: nat, edge: Edge)
    requires Calls(states, times, initial) && times != [] && IsNew(states, id)
    ensures
      var b, now := Boundary(states[0].rows[id], edge), times[|times| - 1];
      var announced := Announced(states[|times|].log, edge, id);
      && announced <= (if b.Some? && b.value <= now then 1 else 0)
      && (b.Some? && times[0] < b.value <= now ==> announced == 1)
      && (b.Some? && b.value <= times[0] && states[0].nextRun <= initial && states[0].lastRun + initial <= now ==>
            announced == 1)
  {
    EveryStanding(states, times, initial, |times|, id, edge);
    var b, now := Boundary(states[0].rows[id], edge), times[|times| - 1];
    if b.Some? && b.value <= times[0] && states[0].nextRun <= initial && states[0].lastRun + initial <= now {
      OverdueWaits(states, times, initial, |times|, id, edge);
      assert times[0] <= now;
    }
  }

  lemma {:induction false} DueIsSent(rows: seq<Promotion>, edge: Edge, now: Time, n: nat, id: nat)
    requires id < n <= |rows| && Due(rows[id], edge, now)
    ensures Notice(edge, id, now) in Sent(rows, edge, now, n)
  {
    if id < n - 1 {
      DueIsSent(rows, edge, now, n - 1, id);
    }
  }

  /**
   * A boundary that passes between two calls of the schedule is announced by the second one, which comes after the
   * boundary by no more than it comes after the delay that the first one asked for: at the very instant, if it is on
   * time.
   */
  lemma AnnouncedInTime(states: seq<Beat>, times: seq<Time>, initial: Time, k: nat, id: nat, edge: Edge)
    requires Calls(states, times, initial) && k + 1 < |times| && IsNew(states, id)
    requires Boundary(states[0].rows[id], edge).Some?
    requires times[k] < Boundary(states[0].rows[id], edge).value <= times[k + 1]
    ensures Notice(edge, id, times[k + 1]) in states[k + 2].log
    ensures
      var late := times[k + 1] - (times[k] + states[k + 1].nextRun);
      0 <= times[k + 1] - Boundary(states[0].rows[id], edge).value <= late
  {
    EveryStanding(states, times, initial, k + 1, id, edge);
    if k > 0 {
      EveryStanding(states, times, initial, k, id, edge);
    }
    FoundByNextCall(states, times, initial, k, id, edge);
    var was, now := states[k + 1], times[k + 1];
    assert IsBeat(was, now, states[k + 2], initial);
    DueIsSent(was.rows, edge, now, |was.rows|, id);
    assert Notice(edge, id, now) in Notices(was.rows, now);
  }
}
