/** `create_or_update_discount_objects_from_promotion_for_checkout` (saleor/discount/utils.py) on the stored rows. */
module PromotionStore {

  import opened Wrappers
  import opened PromotionDiscounts
  import opened PromotionReconciled
  import opened PromotionRows

  /** `_get_discounts_that_are_not_valid_anymore`, which also removes them from the line. */
  method RemoveStale(ds: seq<Discount>, rules: seq<RuleInfo>) returns (kept: seq<Discount>, removed: seq<nat>)
    ensures kept == Kept(ds, rules, |ds|)
    ensures removed == Removed(ds, rules, |ds|)
  {
    kept, removed := [], [];
    var j := 0;
    while j < |ds|
      invariant 0 <= j <= |ds|
      invariant kept == Kept(ds, rules, j)
      invariant removed == Removed(ds, rules, j)
    {
      if Stale(ds, rules, j) {
        removed := removed + [ds[j].id];
      } else {
        kept := kept + [ds[j]];
      }
      j := j + 1;
    }
  }

  /** The loop over the rules of a line. */
  method UpdateOrCreate(kept: seq<Discount>, rules: seq<RuleInfo>, quantity: nat, next: nat) returns (p: Progress)
    ensures p == ApplyRules(kept, rules, quantity, next)
  {
    var discounts := kept;
    var created: seq<Discount> := [];
    var updated: seq<Discount> := [];
    var fields: set<Field> := {};
    var k := 0;
    while k < |rules|
      invariant 0 <= k <= |rules|
      invariant Progress(discounts, created, updated, fields) == ApplyRules(kept, rules[..k], quantity, next)
    {
      var r := rules[k];
      assert rules[..k + 1][..k] == rules[..k];
      var found := LastIndex(kept, Some(r.rule));
      var values := RuleValues(r, quantity);
      if found.None? {
        var discount := Discount(next + |created|, true, Some(r.rule), values);
        created := created + [discount];
        discounts := discounts + [discount];
      } else {
        var j := found.value;
        fields := fields + Changed(discounts[j].values, values);
        discounts := discounts[j := discounts[j].(values := values)];
        updated := updated + [discounts[j]];
      }
      k := k + 1;
    }
    assert rules[..k] == rules;
    p := Progress(discounts, created, updated, fields);
  }

  /** What the loop collects for the writes after it. */
  datatype Collected = Collected(toCreate: seq<Discount>, toUpdate: seq<Discount>, fields: set<Field>,
                                 toRemove: seq<nat>)

  predicate SplitsRemoved(removed: seq<nat>, gone: seq<nat>, toRemove: seq<nat>) {
    && (forall id :: id in removed ==> id in gone || id in toRemove)
    && (forall id :: id in gone ==> id in removed)
    && (forall id :: id in toRemove ==> id in removed)
  }

  /** The writes of `w` are collected, of which `gone` are the keys deleted on the way. */
  predicate Collects(w: Work, c: Collected, gone: seq<nat>) {
    && c.toCreate == w.created && c.toUpdate == w.updated && c.fields == w.fields
    && SplitsRemoved(w.removed, gone, c.toRemove)
  }

  /** The first `i` lines are done. */
  predicate SoFar(all: seq<Line>, next: nat, step: Step, i: nat, c: Collected, gone: seq<nat>, lines: seq<Line>)
    requires i <= |all|
  {
    var w := Fold(all[..i], next, step);
    && |lines| == |all| && lines == w.lines + all[i..]
    && Collects(w, c, gone)
  }

  predicate CollectsMore(before: Collected, gone: seq<nat>, o: Outcome, c: Collected, deleted: seq<nat>) {
    && c.toCreate == before.toCreate + o.progress.created && c.toUpdate == before.toUpdate + o.progress.updated
    && c.fields == before.fields + o.progress.fields
    && ((deleted == gone + o.removed && c.toRemove == before.toRemove)
        || (deleted == gone && c.toRemove == before.toRemove + o.removed))
  }

  /** One more line: the keys to be removed go to `gone` or to the collection. */
  lemma WorkGoesOn(w: Work, all: seq<Line>, i: nat, before: Collected, gone: seq<nat>, o: Outcome, c: Collected,
                   deleted: seq<nat>)
    requires i < |all| && |w.lines| == i && Collects(w, before, gone) && CollectsMore(before, gone, o, c, deleted)
    ensures Collects(Extend(w, all[i], o), c, deleted)
    ensures (w.lines + all[i..])[i := all[i].(discounts := o.progress.discounts)]
         == Extend(w, all[i], o).lines + all[i + 1..]
  {
    NextLines(w, all, i, o);
  }

  lemma FoldLast(all: seq<Line>, next: nat, i: nat, step: Step, o: Outcome)
    requires i < |all| && o == step(all[i], next + |Fold(all[..i], next, step).created|)
    ensures Fold(all[..i + 1], next, step) == Extend(Fold(all[..i], next, step), all[i], o)
  {
    assert all[..i + 1][..i] == all[..i];
  }

  lemma NextLines(w: Work, all: seq<Line>, i: nat, o: Outcome)
    requires i < |all| && |w.lines| == i
    ensures (w.lines + all[i..])[i := all[i].(discounts := o.progress.discounts)]
         == Extend(w, all[i], o).lines + all[i + 1..]
  {
  }

  lemma SoFarStep(all: seq<Line>, next: nat, step: Step, i: nat, before: Collected, gone: seq<nat>, lines: seq<Line>,
                  o: Outcome, c: Collected, deleted: seq<nat>)
    requires i < |all| && SoFar(all, next, step, i, before, gone, lines)
    requires o == step(lines[i], next + |before.toCreate|) && CollectsMore(before, gone, o, c, deleted)
    ensures SoFar(all, next, step, i + 1, c, deleted, lines[i := lines[i].(discounts := o.progress.discounts)])
  {
    var w := Fold(all[..i], next, step);
    assert lines[i] == all[i];
    FoldLast(all, next, i, step, o);
    WorkGoesOn(w, all, i, before, gone, o, c, deleted);
  }

  class DiscountStore {
    var rows: Rows
    var lines: seq<Line>
    var next: nat

    /** One line; its promotion discounts are deleted at once when it is not discounted. */
    method ReconcileOne(i: nat, firstKey: nat) returns (o: Outcome)
      requires i < |lines|
      modifies this`rows, this`lines
      ensures o == ReconcileLine(old(lines[i]), firstKey)
      ensures lines == old(lines)[i := old(lines[i]).(discounts := o.progress.discounts)]
      ensures rows == if DiscountAmount(old(lines[i])) == 0.0 then Without(old(rows), o.removed) else old(rows)
    {
      var line := lines[i];
      if DiscountAmount(line) == 0.0 {
        o := Outcome(Progress([], [], [], {}), PromotionIds(line.discounts));
        rows := Without(rows, o.removed);
      } else {
        var kept, removed := RemoveStale(line.discounts, line.rules);
        var progress := UpdateOrCreate(kept, line.rules, line.quantity, firstKey);
        o := Outcome(progress, removed);
      }
      lines := lines[i := line.(discounts := o.progress.discounts)];
    }

    /** The loop body: the writes for one more line are collected. */
    method ReconcileNext(ghost all: seq<Line>, ghost stored: Rows, i: nat, before: Collected, ghost gone: seq<nat>)
      returns (c: Collected, ghost deleted: seq<nat>)
      requires i < |all| && SoFar(all, next, ReconcileLine, i, before, gone, lines) && rows == Without(stored, gone)
      modifies this`rows, this`lines
      ensures SoFar(all, next, ReconcileLine, i + 1, c, deleted, lines) && rows == Without(stored, deleted)
    {
      var line := lines[i];
      var o := ReconcileOne(i, next + |before.toCreate|);
      deleted := gone;
      var toRemove := before.toRemove;
      if DiscountAmount(line) == 0.0 {
        WithoutTwice(stored, gone, o.removed);
        deleted := gone + o.removed;
      } else {
        toRemove := toRemove + o.removed;
      }
      c := Collected(before.toCreate + o.progress.created, before.toUpdate + o.progress.updated,
                     before.fields + o.progress.fields, toRemove);
      SoFarStep(all, next, ReconcileLine, i, before, gone, old(lines), o, c, deleted);
    }

    /** The loop over the lines; `gone` were deleted on the way. */
    method ReconcileAll() returns (c: Collected, ghost gone: seq<nat>)
      modifies this`rows, this`lines
      ensures SoFar(old(lines), next, ReconcileLine, |old(lines)|, c, gone, lines)
      ensures rows == Without(old(rows), gone)
    {
      ghost var all := lines;
      c, gone := Collected([], [], {}, []), [];
      var i := 0;
      while i < |lines|
        invariant 0 <= i <= |lines| == |all|
        invariant SoFar(all, next, ReconcileLine, i, c, gone, lines)
        invariant rows == Without(old(rows), gone)
      {
        c, gone := ReconcileNext(all, old(rows), i, c, gone);
        i := i + 1;
      }
    }

    /** All lines, and then the collected writes. */
    method CreateOrUpdateDiscounts()
      requires LinesPlain(lines) && KeysBelow(lines, next)
      modifies this
      ensures
        var w := ReconcileLines(old(lines), old(next));
        lines == w.lines && next == old(next) + |w.created| && rows == Write(old(rows), w)
    {
      ghost var all := lines;
      var c, gone := ReconcileAll();
      assert all[..|all|] == all && all[|all|..] == [];
      var toCreate, toUpdate, fields, toRemove := c.toCreate, c.toUpdate, c.fields, c.toRemove;
      rows := WithCreated(rows, toCreate);
      if toUpdate != [] && fields != {} {
        rows := WithUpdated(rows, toUpdate, fields);
      } else {
        NothingToWrite(rows, toUpdate, fields);
      }
      if toRemove != [] {
        rows := Without(rows, toRemove);
      } else {
        NothingToRemove(rows);
      }
      SameWrites(old(rows), all, next, gone, toRemove);
      next := next + |toCreate|;
    }
  }

  lemma NothingToRemove(rows: Rows)
    ensures Without(rows, []) == rows
  {
  }

  lemma WithoutTwice(rows: Rows, a: seq<nat>, b: seq<nat>)
    ensures Without(Without(rows, a), b) == Without(rows, a + b)
  {
  }

  lemma NothingToWrite(rows: Rows, updated: seq<Discount>, fields: set<Field>)
    requires updated == [] || fields == {}
    ensures WithUpdated(rows, updated, fields) == rows
  {
  }

  /** No row of a new discount is deleted. */
  lemma RemovedAreOld(lines: seq<Line>, next: nat, id: nat)
    requires LinesPlain(lines) && KeysBelow(lines, next)
    requires id in ReconcileLines(lines, next).removed
    ensures id < next
  {
    ReconcileLinesFits(lines, next);
    var w := ReconcileLines(lines, next);
    var i :| 0 <= i < |lines| && GoneFrom(lines[i], w.lines[i].discounts, id);
  }

  /** Apart from rows that will be deleted in the end, both tables have the same. */
  ghost predicate SameBut(early: Rows, late: Rows, removed: seq<nat>, toRemove: seq<nat>) {
    forall id: nat ::
      && (id !in toRemove ==> (id in early <==> id in late && id !in removed))
      && (id in early && id in late ==> early[id] == late[id])
  }

  lemma SameAfterRemoval(early: Rows, late: Rows, updated: seq<Discount>, fields: set<Field>, removed: seq<nat>,
                         toRemove: seq<nat>)
    requires SameBut(early, late, removed, toRemove) && forall id :: id in toRemove ==> id in removed
    ensures Without(WithUpdated(early, updated, fields), toRemove)
        == Without(WithUpdated(late, updated, fields), removed)
  {
    var a := Without(WithUpdated(early, updated, fields), toRemove);
    var b := Without(WithUpdated(late, updated, fields), removed);
    forall id: nat ensures id in a <==> id in b {
      assert id !in toRemove ==> (id in early <==> id in late && id !in removed);
    }
    forall id | id in a ensures a[id] == b[id] {
      assert id in early && id in late;
    }
  }

  lemma EarlyRow(rows: Rows, created: seq<Discount>, next: nat, gone: seq<nat>, id: nat)
    requires Numbered(created, next) && (id in gone ==> id < next)
    ensures
      var early, late := WithCreated(Without(rows, gone), created), WithCreated(rows, created);
      && (id in early <==> id in late && id !in gone)
      && (id in early ==> early[id] == late[id])
  {
    CreatedRows(rows, created, next, id);
    CreatedRows(Without(rows, gone), created, next, id);
  }

  /** Deleting some rows early makes no difference. */
  lemma SameWrites(rows: Rows, lines: seq<Line>, next: nat, gone: seq<nat>, toRemove: seq<nat>)
    requires LinesPlain(lines) && KeysBelow(lines, next)
    requires SplitsRemoved(ReconcileLines(lines, next).removed, gone, toRemove)
    ensures
      var w := ReconcileLines(lines, next);
      Without(WithUpdated(WithCreated(Without(rows, gone), w.created), w.updated, w.fields), toRemove)
      == Write(rows, w)
  {
    var w := ReconcileLines(lines, next);
    ReconcileLinesFits(lines, next);
    var early, late := WithCreated(Without(rows, gone), w.created), WithCreated(rows, w.created);
    forall id: nat
      ensures (id in early <==> id in late && id !in gone) && (id in early ==> early[id] == late[id])
    {
      if id in gone {
        RemovedAreOld(lines, next, id);
      }
      EarlyRow(rows, w.created, next, gone, id);
    }
    assert SameBut(early, late, w.removed, toRemove);
    SameAfterRemoval(early, late, w.updated, w.fields, w.removed, toRemove);
  }
}
