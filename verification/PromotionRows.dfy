/** After reconciling, the stored rows of promotion discounts agree with the objects on the lines. */
module PromotionRows {

  import opened Wrappers
  import opened PromotionDiscounts
  import opened PromotionReconciled

  predicate IdsBelow(ds: seq<Discount>, next: nat) {
    forall d :: d in ds ==> d.id < next
  }

  /** `d` is `e`, or a revision of it of which every changed field is to be written. */
  predicate Derived(e: Discount, d: Discount, updated: seq<Discount>, fields: set<Field>) {
    && d == e.(values := d.values)
    && (d == e || (d in updated && Changed(e.values, d.values) <= fields))
  }

  predicate DerivedFrom(ds: seq<Discount>, d: Discount, updated: seq<Discount>, fields: set<Field>) {
    exists e :: e in ds && Derived(e, d, updated, fields)
  }

  // --- One line ---

  predicate Accounted(line: Line, p: Progress, d: Discount) {
    d in p.created || DerivedFrom(line.discounts, d, p.updated, p.fields)
  }

  lemma LineAccounted(line: Line, next: nat, d: Discount)
    requires DistinctRules(line.rules)
    requires d in ReconcileLine(line, next).progress.discounts
    ensures Accounted(line, ReconcileLine(line, next).progress, d)
  {
    if DiscountAmount(line) != 0.0 {
      var kept := Kept(line.discounts, line.rules, |line.discounts|);
      KeptAre(line.discounts, line.rules, |line.discounts|);
      RulesAccounted(kept, line.rules, line.quantity, next, d);
      var p := ApplyRules(kept, line.rules, line.quantity, next);
      if d !in p.created {
        var e :| e in kept && Derived(e, d, p.updated, p.fields);
        assert e in line.discounts;
      }
    }
  }

  lemma RulesAccounted(kept: seq<Discount>, rules: seq<RuleInfo>, quantity: nat, next: nat, d: Discount)
    requires DistinctRules(rules)
    requires d in ApplyRules(kept, rules, quantity, next).discounts
    ensures
      var p := ApplyRules(kept, rules, quantity, next);
      d in p.created || DerivedFrom(kept, d, p.updated, p.fields)
  {
    var p := ApplyRules(kept, rules, quantity, next);
    AppliedRules(kept, rules, quantity, next);
    var k :| 0 <= k < |p.discounts| && p.discounts[k] == d;
    if k < |kept| {
      RevisionIsDerived(kept, rules, quantity, next, k);
      assert kept[k] in kept;
    } else {
      assert p.discounts[|kept| + (k - |kept|)] == p.created[k - |kept|];
    }
  }

  lemma RevisionIsDerived(kept: seq<Discount>, rules: seq<RuleInfo>, quantity: nat, next: nat, k: nat)
    requires DistinctRules(rules) && k < |kept|
    ensures
      var p := ApplyRules(kept, rules, quantity, next);
      Derived(kept[k], Revised(kept, rules, quantity, k), p.updated, p.fields)
  {
    var p := ApplyRules(kept, rules, quantity, next);
    UpdatedAre(kept, rules, quantity, next);
    var d := Revised(kept, rules, quantity, k);
    if RuleFor(kept, rules, k).Some? {
      assert UpdatedFrom(d, kept, rules, quantity, p.fields);
      RevisionCovered(kept, rules, quantity, next, k);
    }
  }

  lemma RevisionCovered(kept: seq<Discount>, rules: seq<RuleInfo>, quantity: nat, next: nat, k: nat)
    requires DistinctRules(rules) && k < |kept| && RuleFor(kept, rules, k).Some?
    ensures Changed(kept[k].values, Revised(kept, rules, quantity, k).values)
         <= ApplyRules(kept, rules, quantity, next).fields
    decreases |rules|
  {
    var n := |rules| - 1;
    var before := ApplyRules(kept, rules[..n], quantity, next);
    AppliedRules(kept, rules[..n], quantity, next);
    if LastIndex(kept, Some(rules[n].rule)) == Some(k) {
      LaterRuleDiffers(kept, rules, n, k);
      assert before.discounts[k] == kept[k];
    } else {
      RevisionCovered(kept, rules[..n], quantity, next, k);
    }
  }

  lemma LineUpdated(line: Line, next: nat, u: Discount)
    requires DistinctRules(line.rules)
    requires u in ReconcileLine(line, next).progress.updated
    ensures u in ReconcileLine(line, next).progress.discounts
    ensures HasId(line.discounts, u.id)
  {
    var kept := Kept(line.discounts, line.rules, |line.discounts|);
    var p := ApplyRules(kept, line.rules, line.quantity, next);
    KeptAre(line.discounts, line.rules, |line.discounts|);
    UpdatedAre(kept, line.rules, line.quantity, next);
    AppliedRules(kept, line.rules, line.quantity, next);
    assert UpdatedFrom(u, kept, line.rules, line.quantity, p.fields);
    var j :| 0 <= j < |kept| && u == Revised(kept, line.rules, line.quantity, j);
    assert p.discounts[j] == u && kept[j] in kept;
    assert kept[j] in line.discounts;
  }

  predicate Numbered(created: seq<Discount>, next: nat) {
    forall k :: 0 <= k < |created| ==> created[k].id == next + k
  }

  /** The keys of new discounts are new. */
  lemma LineCreated(line: Line, next: nat)
    ensures Numbered(ReconcileLine(line, next).progress.created, next)
  {
    if DiscountAmount(line) != 0.0 {
      var kept := Kept(line.discounts, line.rules, |line.discounts|);
      CreatedAre(kept, line.rules, line.quantity, next);
      var c := ReconcileLine(line, next).progress.created;
      forall i | 0 <= i < |c| ensures c[i].id == next + i {
        assert CreatedFor(c[i], next + i, line.rules, kept, line.quantity);
      }
    }
  }

  lemma KeptBelow(ds: seq<Discount>, rules: seq<RuleInfo>, next: nat)
    requires DistinctIds(ds) && IdsBelow(ds, next)
    ensures DistinctIds(Kept(ds, rules, |ds|)) && IdsBelow(Kept(ds, rules, |ds|), next)
  {
    KeptDistinct(ds, rules, |ds|);
    KeptAre(ds, rules, |ds|);
  }

  lemma LineDistinct(line: Line, next: nat)
    requires DistinctRules(line.rules) && DistinctIds(line.discounts) && IdsBelow(line.discounts, next)
    ensures DistinctIds(ReconcileLine(line, next).progress.discounts)
    ensures IdsBelow(ReconcileLine(line, next).progress.discounts, next + |ReconcileLine(line, next).progress.created|)
  {
    if DiscountAmount(line) != 0.0 {
      var kept := Kept(line.discounts, line.rules, |line.discounts|);
      KeptBelow(line.discounts, line.rules, next);
      AppliedRules(kept, line.rules, line.quantity, next);
      LineCreated(line, next);
      var p := ApplyRules(kept, line.rules, line.quantity, next);
      forall k | 0 <= k < |p.discounts|
        ensures p.discounts[k].id == if k < |kept| then kept[k].id else next + (k - |kept|)
        ensures k < |kept| ==> p.discounts[k].id < next
      {
        if k < |kept| {
          assert kept[k] in kept;
        } else {
          assert p.discounts[|kept| + (k - |kept|)] == p.created[k - |kept|];
        }
      }
    }
  }

  lemma LineRemoved(line: Line, next: nat, id: nat)
    requires DistinctRules(line.rules) && DistinctIds(line.discounts) && IdsBelow(line.discounts, next)
    requires id in ReconcileLine(line, next).removed
    ensures HasId(line.discounts, id) && !HasId(ReconcileLine(line, next).progress.discounts, id)
  {
    if DiscountAmount(line) == 0.0 {
      PromotionIdsAre(line.discounts, id);
      var j :| 0 <= j < |line.discounts| && line.discounts[j].id == id;
      assert line.discounts[j] in line.discounts;
    } else {
      StaleIsGone(line, next, id);
    }
  }

  lemma StaleIsGone(line: Line, next: nat, id: nat)
    requires DistinctRules(line.rules) && DistinctIds(line.discounts) && IdsBelow(line.discounts, next)
    requires DiscountAmount(line) != 0.0 && id in Removed(line.discounts, line.rules, |line.discounts|)
    ensures HasId(line.discounts, id) && !HasId(ReconcileLine(line, next).progress.discounts, id)
  {
    var ds := line.discounts;
    RemovedAre(ds, line.rules, |ds|);
    var j :| 0 <= j < |ds| && ds[j].id == id && Stale(ds, line.rules, j);
    assert ds[j] in ds;
    var p := ReconcileLine(line, next).progress;
    if HasId(p.discounts, id) {
      var d :| d in p.discounts && d.id == id;
      var kept := Kept(ds, line.rules, |ds|);
      RulesAccounted(kept, line.rules, line.quantity, next, d);
      if d in p.created {
        LineCreated(line, next);
      } else {
        var e :| e in kept && Derived(e, d, p.updated, p.fields);
        KeptNotRemoved(ds, line.rules, e);
      }
    }
  }

  lemma LinePromotionsStayOrGo(line: Line, next: nat, d: Discount)
    requires DistinctRules(line.rules) && d in line.discounts && d.promotion
    ensures d.id in ReconcileLine(line, next).removed || HasId(ReconcileLine(line, next).progress.discounts, d.id)
  {
    var ds := line.discounts;
    var j :| 0 <= j < |ds| && ds[j] == d;
    if DiscountAmount(line) == 0.0 {
      PromotionIdsAre(ds, d.id);
    } else {
      KeptAre(ds, line.rules, |ds|);
      RemovedAre(ds, line.rules, |ds|);
      var kept := Kept(ds, line.rules, |ds|);
      if !Stale(ds, line.rules, j) {
        var i :| 0 <= i < |kept| && kept[i] == d;
        AppliedRules(kept, line.rules, line.quantity, next);
        var p := ReconcileLine(line, next).progress;
        assert p.discounts[i].id == d.id && p.discounts[i] in p.discounts;
      }
    }
  }

  // --- All lines ---

  predicate LinesPlain(lines: seq<Line>) {
    forall line :: line in lines ==> DistinctRules(line.rules)
  }

  predicate Keys(ds: seq<Discount>, next: nat) {
    DistinctIds(ds) && IdsBelow(ds, next)
  }

  predicate KeysBelow(lines: seq<Line>, next: nat) {
    forall i :: 0 <= i < |lines| ==> Keys(lines[i].discounts, next)
  }

  /** Every object was loaded from its row, once, and the next key is new. */
  ghost predicate Loaded(lines: seq<Line>, rows: Rows, next: nat) {
    && KeysBelow(lines, next)
    && (forall i, d :: 0 <= i < |lines| && d in lines[i].discounts ==> d.id in rows && rows[d.id] == d)
    && (forall i, k, id :: 0 <= i < k < |lines| && HasId(lines[i].discounts, id) ==> !HasId(lines[k].discounts, id))
    && (forall id :: id in rows ==> id < next)
  }

  lemma DerivedStays(ds: seq<Discount>, d: Discount, u: seq<Discount>, f: set<Field>, v: seq<Discount>, g: set<Field>)
    requires DerivedFrom(ds, d, u, f) && (forall x :: x in u ==> x in v) && f <= g
    ensures DerivedFrom(ds, d, v, g)
  {
    var e :| e in ds && Derived(e, d, u, f);
    assert Derived(e, d, v, g);
  }

  predicate AccountedIn(line: Line, w: Work, d: Discount) {
    d in w.created || DerivedFrom(line.discounts, d, w.updated, w.fields)
  }

  lemma ExtendAccounted(line: Line, d: Discount, w: Work, last: Line, o: Outcome)
    requires AccountedIn(line, w, d) || Accounted(line, o.progress, d)
    ensures AccountedIn(line, Extend(w, last, o), d)
  {
    var x := Extend(w, last, o);
    if d !in x.created {
      if AccountedIn(line, w, d) {
        DerivedStays(line.discounts, d, w.updated, w.fields, x.updated, x.fields);
      } else {
        DerivedStays(line.discounts, d, o.progress.updated, o.progress.fields, x.updated, x.fields);
      }
    }
  }

  ghost predicate Accounts(step: Step) {
    forall line: Line, next: nat, d: Discount ::
      DistinctRules(line.rules) && d in step(line, next).progress.discounts ==>
        Accounted(line, step(line, next).progress, d)
  }

  lemma {:induction false} FoldAccounted(lines: seq<Line>, next: nat, step: Step, i: nat, d: Discount)
    requires LinesPlain(lines) && Accounts(step)
    requires i < |lines| && d in Fold(lines, next, step).lines[i].discounts
    ensures AccountedIn(lines[i], Fold(lines, next, step), d)
    decreases |lines|
  {
    var n := |lines| - 1;
    var w := Fold(lines[..n], next, step);
    assert lines[n] in lines;
    if i < n {
      FoldAccounted(lines[..n], next, step, i, d);
    }
    ExtendAccounted(lines[i], d, w, lines[n], step(lines[n], next + |w.created|));
  }

  predicate UpdatedOn(line: Line, after: seq<Discount>, u: Discount) {
    u in after && HasId(line.discounts, u.id)
  }

  ghost predicate Updates(step: Step) {
    forall line: Line, next: nat, u: Discount :: DistinctRules(line.rules) && u in step(line, next).progress.updated ==>
      UpdatedOn(line, step(line, next).progress.discounts, u)
  }

  lemma {:induction false} FoldUpdated(lines: seq<Line>, next: nat, step: Step, u: Discount) returns (i: nat)
    requires LinesPlain(lines) && Updates(step)
    requires u in Fold(lines, next, step).updated
    ensures i < |lines| && UpdatedOn(lines[i], Fold(lines, next, step).lines[i].discounts, u)
    decreases |lines|
  {
    var n := |lines| - 1;
    var w := Fold(lines[..n], next, step);
    assert lines[n] in lines;
    if u in w.updated {
      i := FoldUpdated(lines[..n], next, step, u);
    } else {
      i := n;
      assert UpdatedOn(lines[n], step(lines[n], next + |w.created|).progress.discounts, u);
    }
  }

  predicate GoneFrom(line: Line, after: seq<Discount>, id: nat) {
    HasId(line.discounts, id) && !HasId(after, id)
  }

  ghost predicate Removes(step: Step) {
    forall line: Line, next: nat, id: nat ::
      DistinctRules(line.rules) && Keys(line.discounts, next) && id in step(line, next).removed ==>
        GoneFrom(line, step(line, next).progress.discounts, id)
  }

  lemma KeysGrow(ds: seq<Discount>, next: nat, more: nat)
    requires Keys(ds, next)
    ensures Keys(ds, next + more)
  {
  }

  lemma {:induction false} FoldRemoved(lines: seq<Line>, next: nat, step: Step, id: nat) returns (i: nat)
    requires LinesPlain(lines) && KeysBelow(lines, next) && Removes(step)
    requires id in Fold(lines, next, step).removed
    ensures i < |lines| && GoneFrom(lines[i], Fold(lines, next, step).lines[i].discounts, id)
    decreases |lines|
  {
    var n := |lines| - 1;
    var w := Fold(lines[..n], next, step);
    assert lines[n] in lines;
    if id in w.removed {
      i := FoldRemoved(lines[..n], next, step, id);
    } else {
      i := n;
      KeysGrow(lines[n].discounts, next, |w.created|);
      assert GoneFrom(lines[n], step(lines[n], next + |w.created|).progress.discounts, id);
    }
  }

  lemma NumberedConcat(a: seq<Discount>, b: seq<Discount>, next: nat)
    requires Numbered(a, next) && Numbered(b, next + |a|)
    ensures Numbered(a + b, next)
  {
    forall k | 0 <= k < |a + b| ensures (a + b)[k].id == next + k {
      if k >= |a| {
        assert (a + b)[k] == b[k - |a|];
      }
    }
  }

  ghost predicate Creates(step: Step) {
    forall line: Line, next: nat :: Numbered(step(line, next).progress.created, next)
  }

  lemma {:induction false} FoldCreated(lines: seq<Line>, next: nat, step: Step)
    requires Creates(step)
    ensures Numbered(Fold(lines, next, step).created, next)
    decreases |lines|
  {
    if lines != [] {
      var n := |lines| - 1;
      var w := Fold(lines[..n], next, step);
      FoldCreated(lines[..n], next, step);
      NumberedConcat(w.created, step(lines[n], next + |w.created|).progress.created, next);
    }
  }

  ghost predicate KeepsKeys(step: Step) {
    forall line: Line, next: nat :: DistinctRules(line.rules) && Keys(line.discounts, next) ==>
      Keys(step(line, next).progress.discounts, next + |step(line, next).progress.created|)
  }

  lemma ExtendKeys(w: Work, last: Line, o: Outcome, next: nat, i: nat)
    requires i < |w.lines| ==> Keys(w.lines[i].discounts, next + |w.created|)
    requires Keys(o.progress.discounts, next + |w.created| + |o.progress.created|)
    requires i <= |w.lines|
    ensures Keys(Extend(w, last, o).lines[i].discounts, next + |Extend(w, last, o).created|)
  {
    if i < |w.lines| {
      KeysGrow(w.lines[i].discounts, next + |w.created|, |o.progress.created|);
    }
  }

  lemma {:induction false} FoldKeys(lines: seq<Line>, next: nat, step: Step, i: nat)
    requires LinesPlain(lines) && KeysBelow(lines, next) && KeepsKeys(step) && i < |lines|
    ensures Keys(Fold(lines, next, step).lines[i].discounts, next + |Fold(lines, next, step).created|)
    decreases |lines|
  {
    var n := |lines| - 1;
    var w := Fold(lines[..n], next, step);
    assert lines[n] in lines;
    if i < n {
      FoldKeys(lines[..n], next, step, i);
    }
    KeysGrow(lines[n].discounts, next, |w.created|);
    ExtendKeys(w, lines[n], step(lines[n], next + |w.created|), next, i);
  }

  ghost predicate StayOrGo(step: Step) {
    forall line: Line, next: nat, d: Discount :: DistinctRules(line.rules) && d in line.discounts && d.promotion ==>
      d.id in step(line, next).removed || HasId(step(line, next).progress.discounts, d.id)
  }

  lemma {:induction false} FoldStayOrGo(lines: seq<Line>, next: nat, step: Step, i: nat, d: Discount)
    requires LinesPlain(lines) && StayOrGo(step) && i < |lines| && d in lines[i].discounts && d.promotion
    ensures
      var w := Fold(lines, next, step);
      d.id in w.removed || HasId(w.lines[i].discounts, d.id)
    decreases |lines|
  {
    var n := |lines| - 1;
    var w := Fold(lines[..n], next, step);
    assert lines[n] in lines;
    if i < n {
      FoldStayOrGo(lines[..n], next, step, i, d);
    } else {
      assert d.id in step(lines[n], next + |w.created|).removed
          || HasId(step(lines[n], next + |w.created|).progress.discounts, d.id);
    }
  }

  /** What the work for one line guarantees. */
  ghost predicate Sound(step: Step) {
    Accounts(step) && Updates(step) && Removes(step) && Creates(step) && KeepsKeys(step) && StayOrGo(step)
  }

  lemma ReconcileLineIsSound()
    ensures Sound(ReconcileLine)
  {
    forall line: Line, next: nat, d: Discount | DistinctRules(line.rules)
        && d in ReconcileLine(line, next).progress.discounts
      ensures Accounted(line, ReconcileLine(line, next).progress, d)
    {
      LineAccounted(line, next, d);
    }
    forall line: Line, next: nat, u: Discount | DistinctRules(line.rules)
        && u in ReconcileLine(line, next).progress.updated
      ensures UpdatedOn(line, ReconcileLine(line, next).progress.discounts, u)
    {
      LineUpdated(line, next, u);
    }
    forall line: Line, next: nat, id: nat |
      DistinctRules(line.rules) && Keys(line.discounts, next) && id in ReconcileLine(line, next).removed
      ensures GoneFrom(line, ReconcileLine(line, next).progress.discounts, id)
    {
      LineRemoved(line, next, id);
    }
    forall line: Line, next: nat ensures Numbered(ReconcileLine(line, next).progress.created, next) {
      LineCreated(line, next);
    }
    forall line: Line, next: nat | DistinctRules(line.rules) && Keys(line.discounts, next)
      ensures Keys(ReconcileLine(line, next).progress.discounts, next + |ReconcileLine(line, next).progress.created|)
    {
      LineDistinct(line, next);
    }
    forall line: Line, next: nat, d: Discount | DistinctRules(line.rules) && d in line.discounts && d.promotion
      ensures d.id in ReconcileLine(line, next).removed || HasId(ReconcileLine(line, next).progress.discounts, d.id)
    {
      LinePromotionsStayOrGo(line, next, d);
    }
  }

  // --- The rows ---

  /** What the work for all lines guarantees. */
  ghost predicate WorkFits(lines: seq<Line>, w: Work, next: nat) {
    && |w.lines| == |lines|
    && Numbered(w.created, next)
    && (forall i :: 0 <= i < |lines| ==> DistinctIds(w.lines[i].discounts))
    && (forall i, d :: 0 <= i < |lines| && d in w.lines[i].discounts ==> AccountedIn(lines[i], w, d))
    && (forall u :: u in w.updated ==> exists i :: 0 <= i < |lines| && UpdatedOn(lines[i], w.lines[i].discounts, u))
    && (forall id :: id in w.removed ==> exists i :: 0 <= i < |lines| && GoneFrom(lines[i], w.lines[i].discounts, id))
  }

  lemma ReconcileLinesFits(lines: seq<Line>, next: nat)
    requires LinesPlain(lines) && KeysBelow(lines, next)
    ensures WorkFits(lines, ReconcileLines(lines, next), next)
  {
    ReconcileLineIsSound();
    FoldFits(lines, next, ReconcileLine);
  }

  lemma {:induction false} FoldFits(lines: seq<Line>, next: nat, step: Step)
    requires LinesPlain(lines) && KeysBelow(lines, next) && Sound(step)
    ensures WorkFits(lines, Fold(lines, next, step), next)
  {
    var w := Fold(lines, next, step);
    FoldCreated(lines, next, step);
    forall i | 0 <= i < |lines| ensures DistinctIds(w.lines[i].discounts) {
      FoldKeys(lines, next, step, i);
    }
    forall i, d | 0 <= i < |lines| && d in w.lines[i].discounts ensures AccountedIn(lines[i], w, d) {
      FoldAccounted(lines, next, step, i, d);
    }
    forall u | u in w.updated ensures exists i :: 0 <= i < |lines| && UpdatedOn(lines[i], w.lines[i].discounts, u) {
      var i := FoldUpdated(lines, next, step, u);
    }
    forall id | id in w.removed ensures exists i :: 0 <= i < |lines| && GoneFrom(lines[i], w.lines[i].discounts, id) {
      var i := FoldRemoved(lines, next, step, id);
    }
  }

  lemma {:induction false} CreatedRows(rows: Rows, created: seq<Discount>, next: nat, id: nat)
    requires Numbered(created, next)
    ensures
      var r := WithCreated(rows, created);
      if next <= id < next + |created| then id in r && r[id] == created[id - next]
      else (id in r <==> id in rows) && (id in r ==> r[id] == rows[id])
  {
    if created != [] {
      var n := |created| - 1;
      var before := WithCreated(rows, created[..n]);
      CreatedRows(rows, created[..n], next, id);
      assert created[n].id == next + n;
      assert WithCreated(rows, created) == before[next + n := created[n]];
      if next <= id < next + n {
        assert created[..n][id - next] == created[id - next];
      }
    }
  }

  lemma MergeCovers(row: Values, changed: Values, fields: set<Field>)
    requires Changed(row, changed) <= fields
    ensures Merge(row, changed, fields) == changed
  {
    assert row.valueType != changed.valueType ==> ValueType in Changed(row, changed);
    assert row.value != changed.value ==> Value in Changed(row, changed);
    assert row.amount != changed.amount ==> Amount in Changed(row, changed);
    assert row.name != changed.name ==> Name in Changed(row, changed);
    assert row.translated != changed.translated ==> Translated in Changed(row, changed);
  }

  lemma SameOnLine(ds: seq<Discount>, d: Discount, e: Discount)
    requires DistinctIds(ds) && d in ds && e in ds && d.id == e.id
    ensures d == e
  {
  }

  lemma SameLine(lines: seq<Line>, rows: Rows, next: nat, i: nat, k: nat, id: nat)
    requires Loaded(lines, rows, next) && i < |lines| && k < |lines|
    requires HasId(lines[i].discounts, id) && HasId(lines[k].discounts, id)
    ensures i == k
  {
  }

  lemma KeyIsOld(lines: seq<Line>, rows: Rows, next: nat, i: nat, id: nat)
    requires Loaded(lines, rows, next) && i < |lines| && HasId(lines[i].discounts, id)
    ensures id < next && id in rows
  {
  }

  /** An object that is not new is written to its row, or did not change. */
  lemma LoadedObjectIsWritten(lines: seq<Line>, rows: Rows, next: nat, w: Work, i: nat, d: Discount, e: Discount)
    requires Loaded(lines, rows, next) && WorkFits(lines, w, next)
    requires i < |lines| && d in w.lines[i].discounts && e in lines[i].discounts && Derived(e, d, w.updated, w.fields)
    ensures Updated(e, d.id, w.updated, w.fields) == d
  {
    assert HasId(lines[i].discounts, d.id);
    var found := FirstById(w.updated, d.id);
    if found.Some? {
      var u := found.value;
      var k :| 0 <= k < |lines| && UpdatedOn(lines[k], w.lines[k].discounts, u);
      SameLine(lines, rows, next, i, k, d.id);
      SameOnLine(w.lines[i].discounts, u, d);
      if d == e {
        NothingChanged(e.values, w.fields);
      } else {
        MergeCovers(e.values, d.values, w.fields);
      }
    }
  }

  lemma NothingChanged(values: Values, fields: set<Field>)
    ensures Merge(values, values, fields) == values
  {
  }

  lemma ObjectIsNotRemoved(lines: seq<Line>, rows: Rows, next: nat, w: Work, i: nat, d: Discount)
    requires Loaded(lines, rows, next) && WorkFits(lines, w, next)
    requires i < |lines| && d in w.lines[i].discounts
    requires HasId(lines[i].discounts, d.id) || d.id >= next
    ensures d.id !in w.removed
  {
    assert HasId(w.lines[i].discounts, d.id);
  }

  lemma NewObjectIsNotUpdated(lines: seq<Line>, rows: Rows, next: nat, w: Work, id: nat)
    requires Loaded(lines, rows, next) && WorkFits(lines, w, next) && id >= next
    ensures FirstById(w.updated, id).None?
  {
  }

  lemma WriteAt(rows: Rows, w: Work, id: nat)
    requires id in WithCreated(rows, w.created) && id !in w.removed
    ensures id in Write(rows, w)
        && Write(rows, w)[id] == Updated(WithCreated(rows, w.created)[id], id, w.updated, w.fields)
  {
  }

  predicate Stored(rows: Rows, d: Discount) {
    d.id in rows && rows[d.id] == d
  }

  lemma NewObjectIsStored(lines: seq<Line>, rows: Rows, next: nat, w: Work, i: nat, d: Discount)
    requires Loaded(lines, rows, next) && WorkFits(lines, w, next)
    requires i < |lines| && d in w.lines[i].discounts && d in w.created
    ensures Stored(Write(rows, w), d)
  {
    CreatedRows(rows, w.created, next, d.id);
    ObjectIsNotRemoved(lines, rows, next, w, i, d);
    NewObjectIsNotUpdated(lines, rows, next, w, d.id);
    WriteAt(rows, w, d.id);
  }

  lemma OldObjectIsStored(lines: seq<Line>, rows: Rows, next: nat, w: Work, i: nat, d: Discount, e: Discount)
    requires Loaded(lines, rows, next) && WorkFits(lines, w, next)
    requires i < |lines| && d in w.lines[i].discounts && e in lines[i].discounts && Derived(e, d, w.updated, w.fields)
    ensures Stored(Write(rows, w), d)
  {
    assert HasId(lines[i].discounts, d.id);
    KeyIsOld(lines, rows, next, i, d.id);
    CreatedRows(rows, w.created, next, d.id);
    ObjectIsNotRemoved(lines, rows, next, w, i, d);
    LoadedObjectIsWritten(lines, rows, next, w, i, d, e);
    WriteAt(rows, w, d.id);
  }

  lemma ObjectIsStored(lines: seq<Line>, rows: Rows, next: nat, w: Work, i: nat, d: Discount)
    requires Loaded(lines, rows, next) && WorkFits(lines, w, next)
    requires i < |lines| && d in w.lines[i].discounts
    ensures Stored(Write(rows, w), d)
  {
    assert AccountedIn(lines[i], w, d);
    if d in w.created {
      NewObjectIsStored(lines, rows, next, w, i, d);
    } else {
      var e :| e in lines[i].discounts && Derived(e, d, w.updated, w.fields);
      OldObjectIsStored(lines, rows, next, w, i, d, e);
    }
  }

  lemma OtherRowStays(lines: seq<Line>, rows: Rows, next: nat, w: Work, id: nat)
    requires Loaded(lines, rows, next) && WorkFits(lines, w, next)
    requires id in rows && forall i :: 0 <= i < |lines| ==> !HasId(lines[i].discounts, id)
    ensures id in Write(rows, w) && Write(rows, w)[id] == rows[id]
  {
    CreatedRows(rows, w.created, next, id);
    assert id !in w.removed;
    assert FirstById(w.updated, id).None?;
    WriteAt(rows, w, id);
  }

  // --- What the call achieves ---

  /** Every object on a line equals its row, although only the union of the changed fields was written. */
  lemma RowsAgree(lines: seq<Line>, rows: Rows, next: nat)
    requires LinesPlain(lines) && Loaded(lines, rows, next)
    ensures
      var w := ReconcileLines(lines, next);
      forall i, d :: 0 <= i < |lines| && d in w.lines[i].discounts ==> Stored(Write(rows, w), d)
  {
    var w := ReconcileLines(lines, next);
    ReconcileLinesFits(lines, next);
    forall i, d | 0 <= i < |lines| && d in w.lines[i].discounts ensures Stored(Write(rows, w), d) {
      ObjectIsStored(lines, rows, next, w, i, d);
    }
  }

  /** The rows of other lines are not touched. */
  lemma OtherRowsStay(lines: seq<Line>, rows: Rows, next: nat, id: nat)
    requires LinesPlain(lines) && Loaded(lines, rows, next)
    requires id in rows && forall i :: 0 <= i < |lines| ==> !HasId(lines[i].discounts, id)
    ensures
      var r := Write(rows, ReconcileLines(lines, next));
      id in r && r[id] == rows[id]
  {
    ReconcileLinesFits(lines, next);
    OtherRowStays(lines, rows, next, ReconcileLines(lines, next), id);
  }

  /** A row of a promotion discount that is not on its line any more is gone. */
  lemma DroppedRowsAreDeleted(lines: seq<Line>, rows: Rows, next: nat, i: nat, d: Discount)
    requires LinesPlain(lines) && i < |lines| && d in lines[i].discounts && d.promotion
    requires !HasId(ReconcileLines(lines, next).lines[i].discounts, d.id)
    ensures d.id !in Write(rows, ReconcileLines(lines, next))
  {
    ReconcileLineIsSound();
    FoldStayOrGo(lines, next, ReconcileLine, i, d);
  }

  /** A second call on the lines and rows that the first one left changes neither. */
  lemma SecondCallIsIdle(lines: seq<Line>, rows: Rows, next: nat, later: nat)
    requires forall line :: line in lines ==> Plain(line)
    ensures
      var w := ReconcileLines(lines, next);
      var again := ReconcileLines(w.lines, later);
      && again.lines == w.lines && again.created == [] && again.removed == []
      && Write(Write(rows, w), again) == Write(rows, w)
  {
    FirstCallSettles(lines, next);
    SecondCallWritesNothing(ReconcileLines(lines, next).lines, Write(rows, ReconcileLines(lines, next)), later);
  }
}
