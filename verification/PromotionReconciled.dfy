/** What reconciling promotion discounts achieves: one discount for each rule, and rows that agree with the objects. */
module PromotionReconciled {

  import opened Wrappers
  import opened PromotionDiscounts

  predicate DistinctIds(ds: seq<Discount>) {
    forall i, j :: 0 <= i < j < |ds| ==> ds[i].id != ds[j].id
  }

  predicate DistinctRules(rules: seq<RuleInfo>) {
    forall i, j :: 0 <= i < j < |rules| ==> rules[i].rule != rules[j].rule
  }

  predicate OnlyPromotions(ds: seq<Discount>) {
    forall d :: d in ds ==> d.promotion
  }

  predicate HasId(ds: seq<Discount>, id: nat) {
    exists d :: d in ds && d.id == id
  }

  // --- What is kept ---

  lemma {:induction false} PromotionIdsAre(ds: seq<Discount>, id: nat)
    ensures id in PromotionIds(ds) <==> exists j :: 0 <= j < |ds| && ds[j].promotion && ds[j].id == id
  {
    if ds != [] {
      PromotionIdsAre(ds[..|ds| - 1], id);
    }
  }

  lemma {:induction false} KeptAre(ds: seq<Discount>, rules: seq<RuleInfo>, n: nat)
    requires n <= |ds|
    ensures forall d :: d in Kept(ds, rules, n) ==> exists j :: 0 <= j < n && ds[j] == d && !Stale(ds, rules, j)
    ensures forall j :: 0 <= j < n && !Stale(ds, rules, j) ==> ds[j] in Kept(ds, rules, n)
  {
    if n > 0 {
      KeptAre(ds, rules, n - 1);
    }
  }

  lemma {:induction false} RemovedAre(ds: seq<Discount>, rules: seq<RuleInfo>, n: nat)
    requires n <= |ds|
    ensures forall id :: id in Removed(ds, rules, n) ==> exists j :: 0 <= j < n && ds[j].id == id && Stale(ds, rules, j)
    ensures forall j :: 0 <= j < n && Stale(ds, rules, j) ==> ds[j].id in Removed(ds, rules, n)
  {
    if n > 0 {
      RemovedAre(ds, rules, n - 1);
    }
  }

  lemma {:induction false} KeptDistinct(ds: seq<Discount>, rules: seq<RuleInfo>, n: nat)
    requires n <= |ds| && DistinctIds(ds)
    ensures DistinctIds(Kept(ds, rules, n))
  {
    if n > 0 {
      KeptDistinct(ds, rules, n - 1);
      KeptAre(ds, rules, n - 1);
      var kept := Kept(ds, rules, n - 1);
      forall i | 0 <= i < |kept| ensures kept[i].id != ds[n - 1].id {
        assert kept[i] in kept;
      }
    }
  }

  lemma KeptNotRemoved(ds: seq<Discount>, rules: seq<RuleInfo>, d: Discount)
    requires DistinctIds(ds)
    requires d in Kept(ds, rules, |ds|)
    ensures d.id !in Removed(ds, rules, |ds|)
  {
    KeptAre(ds, rules, |ds|);
    RemovedAre(ds, rules, |ds|);
  }

  // --- What the rules do ---

  /** The rule that the dictionary finds this discount for. */
  function RuleFor(kept: seq<Discount>, rules: seq<RuleInfo>, j: nat): (r: Option<RuleInfo>)
    requires j < |kept|
    ensures r.Some? ==> r.value in rules && LastIndex(kept, Some(r.value.rule)) == Some(j)
    ensures r.None? ==> forall q :: q in rules ==> LastIndex(kept, Some(q.rule)) != Some(j)
    decreases |rules|
  {
    if rules == [] then None
    else
      var n := |rules| - 1;
      if LastIndex(kept, Some(rules[n].rule)) == Some(j) then Some(rules[n]) else RuleFor(kept, rules[..n], j)
  }

  function Revised(kept: seq<Discount>, rules: seq<RuleInfo>, quantity: nat, j: nat): (d: Discount)
    requires j < |kept|
    ensures d.id == kept[j].id && d.rule == kept[j].rule && d.promotion == kept[j].promotion
  {
    var r := RuleFor(kept, rules, j);
    if r.Some? then kept[j].(values := RuleValues(r.value, quantity)) else kept[j]
  }

  lemma LaterRuleDiffers(kept: seq<Discount>, rules: seq<RuleInfo>, n: nat, j: nat)
    requires DistinctRules(rules) && n < |rules| && j < |kept|
    requires LastIndex(kept, Some(rules[n].rule)) == Some(j)
    ensures RuleFor(kept, rules[..n], j).None?
  {
  }

  /** The kept discounts first, revised where there is a rule for them, and then the created ones. */
  lemma {:induction false} AppliedRules(kept: seq<Discount>, rules: seq<RuleInfo>, quantity: nat, next: nat)
    requires DistinctRules(rules)
    ensures
      var p := ApplyRules(kept, rules, quantity, next);
      && |p.discounts| == |kept| + |p.created|
      && (forall j :: 0 <= j < |kept| ==> p.discounts[j] == Revised(kept, rules, quantity, j))
      && (forall i :: 0 <= i < |p.created| ==> p.discounts[|kept| + i] == p.created[i])
    decreases |rules|
  {
    if rules != [] {
      var n := |rules| - 1;
      AppliedRules(kept, rules[..n], quantity, next);
      var before := ApplyRules(kept, rules[..n], quantity, next);
      var p := ApplyRules(kept, rules, quantity, next);
      forall j | 0 <= j < |kept| ensures p.discounts[j] == Revised(kept, rules, quantity, j) {
        if LastIndex(kept, Some(rules[n].rule)) == Some(j) {
          assert p.discounts[j] == before.discounts[j].(values := RuleValues(rules[n], quantity));
        } else {
          assert p.discounts[j] == before.discounts[j];
        }
      }
    }
  }

  predicate CreatedFor(d: Discount, id: nat, rules: seq<RuleInfo>, kept: seq<Discount>, quantity: nat) {
    && d.id == id && d.promotion
    && exists r :: r in rules && d.rule == Some(r.rule) && d.values == RuleValues(r, quantity)
                   && LastIndex(kept, Some(r.rule)).None?
  }

  lemma {:induction false} CreatedAre(kept: seq<Discount>, rules: seq<RuleInfo>, quantity: nat, next: nat)
    ensures
      var p := ApplyRules(kept, rules, quantity, next);
      && (forall i :: 0 <= i < |p.created| ==> CreatedFor(p.created[i], next + i, rules, kept, quantity))
      && (forall r :: r in rules && LastIndex(kept, Some(r.rule)).None? ==>
            exists d :: d in p.created && d.rule == Some(r.rule))
    decreases |rules|
  {
    if rules != [] {
      var n := |rules| - 1;
      CreatedAre(kept, rules[..n], quantity, next);
      var before := ApplyRules(kept, rules[..n], quantity, next);
      var p := ApplyRules(kept, rules, quantity, next);
      forall i | 0 <= i < |p.created| ensures CreatedFor(p.created[i], next + i, rules, kept, quantity) {
        if i < |before.created| {
          assert CreatedFor(before.created[i], next + i, rules[..n], kept, quantity);
        } else {
          assert rules[n] in rules;
        }
      }
      forall r | r in rules && LastIndex(kept, Some(r.rule)).None?
        ensures exists d :: d in p.created && d.rule == Some(r.rule)
      {
        if r in rules[..n] {
          var d :| d in before.created && d.rule == Some(r.rule);
          assert d in p.created;
        } else {
          assert r == rules[n];
          assert p.created[|before.created|] in p.created;
        }
      }
    }
  }

  lemma {:induction false} CreatedDistinct(kept: seq<Discount>, rules: seq<RuleInfo>, quantity: nat, next: nat)
    requires DistinctRules(rules)
    ensures
      var c := ApplyRules(kept, rules, quantity, next).created;
      forall i, j :: 0 <= i < j < |c| ==> c[i].rule != c[j].rule
    decreases |rules|
  {
    if rules != [] {
      var n := |rules| - 1;
      CreatedDistinct(kept, rules[..n], quantity, next);
      CreatedAre(kept, rules[..n], quantity, next);
      var before := ApplyRules(kept, rules[..n], quantity, next).created;
      forall i | 0 <= i < |before| ensures before[i].rule != Some(rules[n].rule) {
        assert CreatedFor(before[i], next + i, rules[..n], kept, quantity);
      }
    }
  }

  predicate UpdatedFrom(u: Discount, kept: seq<Discount>, rules: seq<RuleInfo>, quantity: nat, fields: set<Field>) {
    exists j :: 0 <= j < |kept| && RuleFor(kept, rules, j).Some? && u == Revised(kept, rules, quantity, j) &&
                Changed(kept[j].values, u.values) <= fields
  }

  /** What is to be written covers every change. */
  lemma {:induction false} UpdatedAre(kept: seq<Discount>, rules: seq<RuleInfo>, quantity: nat, next: nat)
    requires DistinctRules(rules)
    ensures
      var p := ApplyRules(kept, rules, quantity, next);
      && (forall u :: u in p.updated ==> UpdatedFrom(u, kept, rules, quantity, p.fields))
      && (forall j :: 0 <= j < |kept| && RuleFor(kept, rules, j).Some? ==>
          Revised(kept, rules, quantity, j) in p.updated)
    decreases |rules|
  {
    if rules != [] {
      var n := |rules| - 1;
      var r := rules[n];
      UpdatedAre(kept, rules[..n], quantity, next);
      AppliedRules(kept, rules[..n], quantity, next);
      var before := ApplyRules(kept, rules[..n], quantity, next);
      var p := ApplyRules(kept, rules, quantity, next);
      var found := LastIndex(kept, Some(r.rule));
      if found.Some? {
        LaterRuleDiffers(kept, rules, n, found.value);
        assert before.discounts[found.value] == kept[found.value];
        assert p.updated == before.updated + [Revised(kept, rules, quantity, found.value)];
      }
      forall u | u in before.updated ensures UpdatedFrom(u, kept, rules, quantity, p.fields) {
        var j :| 0 <= j < |kept| && RuleFor(kept, rules[..n], j).Some? && u == Revised(kept, rules[..n], quantity, j)
                 && Changed(kept[j].values, u.values) <= before.fields;
        assert found != Some(j);
        assert u == Revised(kept, rules, quantity, j);
      }
    }
  }

  // --- One discount for each rule ---

  predicate SingleRule(ds: seq<Discount>) {
    forall i, j :: 0 <= i < j < |ds| ==> ds[i].rule != ds[j].rule
  }

  predicate Prescribed(d: Discount, rules: seq<RuleInfo>, quantity: nat) {
    exists r :: r in rules && d.rule == Some(r.rule) && d.values == RuleValues(r, quantity)
  }

  /** One discount for every current rule, with what the code computes for it, and no other discount. */
  predicate Reconciled(ds: seq<Discount>, rules: seq<RuleInfo>, quantity: nat) {
    && SingleRule(ds)
    && (forall d :: d in ds ==> Prescribed(d, rules, quantity))
    && forall r :: r in rules ==> exists d :: d in ds && d.rule == Some(r.rule)
  }

  lemma LastIsOnly(ds: seq<Discount>, j: nat)
    requires SingleRule(ds) && j < |ds| && ds[j].promotion
    ensures LastIndex(ds, ds[j].rule) == Some(j)
  {
  }

  lemma KeptCurrent(ds: seq<Discount>, rules: seq<RuleInfo>, n: nat)
    requires n <= |ds| && SingleRule(ds) && OnlyPromotions(ds)
    ensures forall d :: d in Kept(ds, rules, n) ==> d in ds && Current(rules, d.rule)
  {
    KeptAre(ds, rules, n);
    forall d | d in Kept(ds, rules, n) ensures d in ds && Current(rules, d.rule) {
      var j :| 0 <= j < n && ds[j] == d && !Stale(ds, rules, j);
      assert ds[j] in ds;
      LastIsOnly(ds, j);
    }
  }

  lemma {:induction false} KeptSingle(ds: seq<Discount>, rules: seq<RuleInfo>, n: nat)
    requires n <= |ds| && SingleRule(ds)
    ensures SingleRule(Kept(ds, rules, n))
  {
    if n > 0 {
      KeptSingle(ds, rules, n - 1);
      var kept := Kept(ds, rules, n - 1);
      forall i | 0 <= i < |kept| ensures kept[i].rule != ds[n - 1].rule {
        KeptAre(ds, rules, n - 1);
        assert kept[i] in kept;
      }
    }
  }

  lemma SameRule(rules: seq<RuleInfo>, q: RuleInfo, r: RuleInfo)
    requires DistinctRules(rules) && q in rules && r in rules && q.rule == r.rule
    ensures q == r
  {
  }

  lemma RevisedIsPrescribed(kept: seq<Discount>, rules: seq<RuleInfo>, quantity: nat, j: nat)
    requires SingleRule(kept) && j < |kept| && kept[j].promotion && Current(rules, kept[j].rule)
    ensures Prescribed(Revised(kept, rules, quantity, j), rules, quantity)
  {
    LastIsOnly(kept, j);
    var r :| r in rules && kept[j].rule == Some(r.rule);
    assert RuleFor(kept, rules, j).Some?;
  }

  lemma CreatedPrescribed(kept: seq<Discount>, rules: seq<RuleInfo>, quantity: nat, next: nat, i: nat)
    requires i < |ApplyRules(kept, rules, quantity, next).created|
    ensures
      var d := ApplyRules(kept, rules, quantity, next).created[i];
      d.promotion && Prescribed(d, rules, quantity)
  {
    CreatedAre(kept, rules, quantity, next);
    assert CreatedFor(ApplyRules(kept, rules, quantity, next).created[i], next + i, rules, kept, quantity);
  }

  lemma AppliedPrescribed(kept: seq<Discount>, rules: seq<RuleInfo>, quantity: nat, next: nat, k: nat)
    requires SingleRule(kept) && OnlyPromotions(kept) && DistinctRules(rules)
    requires forall d :: d in kept ==> Current(rules, d.rule)
    requires k < |ApplyRules(kept, rules, quantity, next).discounts|
    ensures
      var d := ApplyRules(kept, rules, quantity, next).discounts[k];
      d.promotion && Prescribed(d, rules, quantity)
  {
    AppliedRules(kept, rules, quantity, next);
    if k < |kept| {
      assert kept[k] in kept;
      RevisedIsPrescribed(kept, rules, quantity, k);
    } else {
      var i := k - |kept|;
      assert ApplyRules(kept, rules, quantity, next).discounts[|kept| + i]
          == ApplyRules(kept, rules, quantity, next).created[i];
      CreatedPrescribed(kept, rules, quantity, next, i);
    }
  }

  lemma AllPrescribed(kept: seq<Discount>, rules: seq<RuleInfo>, quantity: nat, next: nat)
    requires SingleRule(kept) && OnlyPromotions(kept) && DistinctRules(rules)
    requires forall d :: d in kept ==> Current(rules, d.rule)
    ensures forall d :: d in ApplyRules(kept, rules, quantity, next).discounts ==>
      d.promotion && Prescribed(d, rules, quantity)
  {
    var ds := ApplyRules(kept, rules, quantity, next).discounts;
    forall d | d in ds ensures d.promotion && Prescribed(d, rules, quantity) {
      var k :| 0 <= k < |ds| && ds[k] == d;
      AppliedPrescribed(kept, rules, quantity, next, k);
    }
  }

  lemma AllServed(kept: seq<Discount>, rules: seq<RuleInfo>, quantity: nat, next: nat)
    requires DistinctRules(rules)
    ensures forall r :: r in rules ==>
      exists d :: d in ApplyRules(kept, rules, quantity, next).discounts && d.rule == Some(r.rule)
  {
    forall r | r in rules
      ensures exists d :: d in ApplyRules(kept, rules, quantity, next).discounts && d.rule == Some(r.rule)
    {
      RuleIsServed(kept, rules, quantity, next, r);
    }
  }

  /** With one discount for each rule before, there is exactly one for each current rule after. */
  lemma {:induction false} SingleIsReconciled(ds: seq<Discount>, rules: seq<RuleInfo>, quantity: nat, next: nat)
    requires SingleRule(ds) && OnlyPromotions(ds) && DistinctRules(rules)
    ensures Reconciled(ApplyRules(Kept(ds, rules, |ds|), rules, quantity, next).discounts, rules, quantity)
    ensures OnlyPromotions(ApplyRules(Kept(ds, rules, |ds|), rules, quantity, next).discounts)
  {
    var kept := Kept(ds, rules, |ds|);
    KeptSingle(ds, rules, |ds|);
    KeptCurrent(ds, rules, |ds|);
    AppliedSingle(kept, rules, quantity, next);
    AllPrescribed(kept, rules, quantity, next);
    AllServed(kept, rules, quantity, next);
  }

  lemma AppliedSingle(kept: seq<Discount>, rules: seq<RuleInfo>, quantity: nat, next: nat)
    requires SingleRule(kept) && OnlyPromotions(kept) && DistinctRules(rules)
    ensures SingleRule(ApplyRules(kept, rules, quantity, next).discounts)
  {
    AppliedRules(kept, rules, quantity, next);
    CreatedAre(kept, rules, quantity, next);
    CreatedDistinct(kept, rules, quantity, next);
    var p := ApplyRules(kept, rules, quantity, next);
    forall i, j | 0 <= i < j < |p.discounts| ensures p.discounts[i].rule != p.discounts[j].rule {
      if j >= |kept| {
        var created := p.created[j - |kept|];
        assert p.discounts[|kept| + (j - |kept|)] == created;
        assert CreatedFor(created, next + (j - |kept|), rules, kept, quantity);
        if i >= |kept| {
          assert p.discounts[|kept| + (i - |kept|)] == p.created[i - |kept|];
        } else {
          assert kept[i] in kept;
        }
      }
    }
  }

  lemma RuleIsServed(kept: seq<Discount>, rules: seq<RuleInfo>, quantity: nat, next: nat, r: RuleInfo)
    requires DistinctRules(rules) && r in rules
    ensures exists d :: d in ApplyRules(kept, rules, quantity, next).discounts && d.rule == Some(r.rule)
  {
    var p := ApplyRules(kept, rules, quantity, next);
    AppliedRules(kept, rules, quantity, next);
    CreatedAre(kept, rules, quantity, next);
    var found := LastIndex(kept, Some(r.rule));
    if found.Some? {
      assert p.discounts[found.value] == Revised(kept, rules, quantity, found.value);
      assert p.discounts[found.value] in p.discounts;
    } else {
      var d :| d in p.created && d.rule == Some(r.rule);
      var i :| 0 <= i < |p.created| && p.created[i] == d;
      assert p.discounts[|kept| + i] == d;
    }
  }

  /** A discount that is kept is still there, for the same rule. */
  lemma KeptStays(kept: seq<Discount>, rules: seq<RuleInfo>, quantity: nat, next: nat, j: nat)
    requires DistinctRules(rules) && j < |kept|
    ensures
      var p := ApplyRules(kept, rules, quantity, next).discounts;
      |kept| <= |p| && p[j] in p && p[j].rule == kept[j].rule
  {
    AppliedRules(kept, rules, quantity, next);
  }

  /** Two discounts of a rule: one of them is missed by the dictionary. */
  lemma {:induction false} KeptTwice(ds: seq<Discount>, rules: seq<RuleInfo>, n: nat, a: nat, b: nat)
    requires a < b < n <= |ds| && ds[a].rule == ds[b].rule && Current(rules, ds[a].rule)
    ensures !SingleRule(Kept(ds, rules, n))
  {
    if b == n - 1 {
      KeptAre(ds, rules, b);
      var kept := Kept(ds, rules, b);
      assert ds[a] in kept;
      var i :| 0 <= i < |kept| && kept[i] == ds[a];
      assert Kept(ds, rules, n)[i].rule == Kept(ds, rules, n)[|kept|].rule;
    } else {
      KeptTwice(ds, rules, n - 1, a, b);
      var kept := Kept(ds, rules, n - 1);
      var i, j :| 0 <= i < j < |kept| && kept[i].rule == kept[j].rule;
      assert Kept(ds, rules, n)[i] == kept[i] && Kept(ds, rules, n)[j] == kept[j];
    }
  }

  lemma DoubleIsNotReconciled(ds: seq<Discount>, rules: seq<RuleInfo>, quantity: nat, next: nat)
    requires !SingleRule(ds) && OnlyPromotions(ds) && DistinctRules(rules)
    ensures !Reconciled(ApplyRules(Kept(ds, rules, |ds|), rules, quantity, next).discounts, rules, quantity)
  {
    var a, b :| 0 <= a < b < |ds| && ds[a].rule == ds[b].rule;
    var kept := Kept(ds, rules, |ds|);
    var p := ApplyRules(kept, rules, quantity, next).discounts;
    if Current(rules, ds[a].rule) {
      KeptTwice(ds, rules, |ds|, a, b);
      var i, j :| 0 <= i < j < |kept| && kept[i].rule == kept[j].rule;
      KeptStays(kept, rules, quantity, next, i);
      KeptStays(kept, rules, quantity, next, j);
    } else {
      assert ds[b] in ds;
      assert LastIndex(ds, ds[a].rule) != Some(a);
      KeptAre(ds, rules, |ds|);
      assert ds[a] in kept;
      var i :| 0 <= i < |kept| && kept[i] == ds[a];
      KeptStays(kept, rules, quantity, next, i);
      assert !Prescribed(p[i], rules, quantity);
    }
  }

  /** A rule's amount for each piece, its value and its names. */
  predicate OfRule(v: Values, r: RuleInfo, quantity: nat) {
    && v.amount == r.amount * quantity as real
    && v.valueType == r.valueType && v.value == r.value && v.name == r.name && v.translated == r.translated
  }

  lemma RuleValuesAre(v: Values, r: RuleInfo, quantity: nat)
    ensures v == RuleValues(r, quantity) <==> OfRule(v, r, quantity)
  {
    TimesIsProduct(r.amount, quantity);
  }

  /** The discount of a current rule, with the values of that rule. */
  predicate HasRuleValues(d: Discount, rules: seq<RuleInfo>, quantity: nat) {
    exists r :: r in rules && d.rule == Some(r.rule) && OfRule(d.values, r, quantity)
  }

  lemma PrescribedValues(d: Discount, rules: seq<RuleInfo>, quantity: nat)
    ensures Prescribed(d, rules, quantity) <==> HasRuleValues(d, rules, quantity)
  {
    forall r | r in rules {
      RuleValuesAre(d.values, r, quantity);
    }
  }

  /** Exactly one discount for every current rule, with its values, and no other discount. */
  predicate OneForEachRule(ds: seq<Discount>, rules: seq<RuleInfo>, quantity: nat) {
    && SingleRule(ds)
    && (forall d :: d in ds ==> HasRuleValues(d, rules, quantity))
    && forall r :: r in rules ==> exists d :: d in ds && d.rule == Some(r.rule)
  }

  lemma ReconciledMeans(ds: seq<Discount>, rules: seq<RuleInfo>, quantity: nat)
    ensures Reconciled(ds, rules, quantity) <==> OneForEachRule(ds, rules, quantity)
  {
    forall d | d in ds {
      PrescribedValues(d, rules, quantity);
    }
  }

  /** A line with pieces whose price is known and differs from the discounted one. */
  predicate IsDiscounted(line: Line) {
    line.price.Some? && line.discounted.Some? && line.price.value != line.discounted.value && line.quantity > 0
  }

  lemma DiscountedAmount(line: Line)
    ensures DiscountAmount(line) != 0.0 <==> IsDiscounted(line)
    ensures IsDiscounted(line) ==>
      DiscountAmount(line) == (line.price.value - line.discounted.value) * line.quantity as real
  {
    if line.price.Some? && line.discounted.Some? {
      TimesIsProduct(line.price.value - line.discounted.value, line.quantity);
    }
  }

  /**
   * A discounted line ends with one discount for each rule, with the rule's amount for each piece, its value and names,
   * exactly when it had no two discounts of one rule.
   */
  lemma OneDiscountPerRule(line: Line, next: nat)
    requires IsDiscounted(line) && OnlyPromotions(line.discounts) && DistinctRules(line.rules)
    ensures OneForEachRule(ReconcileLine(line, next).progress.discounts, line.rules, line.quantity)
      <==> SingleRule(line.discounts)
  {
    DiscountedAmount(line);
    ReconciledMeans(ReconcileLine(line, next).progress.discounts, line.rules, line.quantity);
    if SingleRule(line.discounts) {
      SingleIsReconciled(line.discounts, line.rules, line.quantity, next);
    } else {
      DoubleIsNotReconciled(line.discounts, line.rules, line.quantity, next);
    }
  }

  /** A line without a discount ends with none, and all its promotion discounts are deleted. */
  lemma NoneOnUndiscounted(line: Line, next: nat)
    requires !IsDiscounted(line)
    ensures ReconcileLine(line, next).progress.discounts == []
    ensures forall d :: d in line.discounts && d.promotion ==> d.id in ReconcileLine(line, next).removed
  {
    DiscountedAmount(line);
    forall d | d in line.discounts && d.promotion ensures d.id in PromotionIds(line.discounts) {
      PromotionIdsAre(line.discounts, d.id);
    }
  }

  // --- A second time ---

  lemma {:induction false} NothingStale(ds: seq<Discount>, rules: seq<RuleInfo>, n: nat)
    requires n <= |ds| && forall d :: d in ds ==> Current(rules, d.rule)
    ensures Kept(ds, rules, n) == ds[..n] && Removed(ds, rules, n) == []
  {
    if n > 0 {
      NothingStale(ds, rules, n - 1);
      assert ds[n - 1] in ds;
      assert ds[..n] == ds[..n - 1] + [ds[n - 1]];
    }
  }

  lemma PrescribedIsCurrent(ds: seq<Discount>, rules: seq<RuleInfo>, quantity: nat)
    requires forall d :: d in ds ==> Prescribed(d, rules, quantity)
    ensures forall d :: d in ds ==> Current(rules, d.rule)
  {
  }

  lemma FoundIsUnchanged(ds: seq<Discount>, rules: seq<RuleInfo>, quantity: nat, r: RuleInfo)
    requires Reconciled(ds, rules, quantity) && OnlyPromotions(ds) && DistinctRules(rules) && r in rules
    ensures
      var found := LastIndex(ds, Some(r.rule));
      found.Some? && ds[found.value].values == RuleValues(r, quantity)
  {
    var d :| d in ds && d.rule == Some(r.rule);
    var j := LastIndex(ds, Some(r.rule)).value;
    assert ds[j] in ds;
    var q :| q in rules && ds[j].rule == Some(q.rule) && ds[j].values == RuleValues(q, quantity);
    SameRule(rules, q, r);
  }

  predicate NoChange(p: Progress, ds: seq<Discount>) {
    p.discounts == ds && p.created == [] && p.fields == {}
  }

  lemma NothingToApplyStep(p: Progress, ds: seq<Discount>, r: RuleInfo, quantity: nat, next: nat)
    requires NoChange(p, ds)
    requires
      var found := LastIndex(ds, Some(r.rule));
      found.Some? && ds[found.value].values == RuleValues(r, quantity)
    ensures NoChange(ApplyRule(p, ds, r, quantity, next), ds)
  {
    var j := LastIndex(ds, Some(r.rule)).value;
    assert ds[j].(values := RuleValues(r, quantity)) == ds[j];
  }

  lemma {:induction false} NothingToApply(ds: seq<Discount>, rules: seq<RuleInfo>, some: seq<RuleInfo>, quantity: nat,
                                          next: nat)
    requires Reconciled(ds, rules, quantity) && OnlyPromotions(ds) && DistinctRules(rules)
    requires forall r :: r in some ==> r in rules
    ensures NoChange(ApplyRules(ds, some, quantity, next), ds)
    decreases |some|
  {
    if some != [] {
      var n := |some| - 1;
      NothingToApply(ds, rules, some[..n], quantity, next);
      assert some[n] in some;
      FoundIsUnchanged(ds, rules, quantity, some[n]);
      NothingToApplyStep(ApplyRules(ds, some[..n], quantity, next), ds, some[n], quantity, next);
    }
  }

  /** What the first call leaves: reconciled lines, and none on undiscounted ones. */
  predicate Settled(line: Line) {
    if DiscountAmount(line) == 0.0 then line.discounts == []
    else Reconciled(line.discounts, line.rules, line.quantity) && OnlyPromotions(line.discounts)
         && DistinctRules(line.rules)
  }

  lemma SettledLineStays(line: Line, next: nat)
    requires Settled(line)
    ensures StaysAs(line, ReconcileLine(line, next))
  {
    if DiscountAmount(line) != 0.0 {
      var ds := line.discounts;
      PrescribedIsCurrent(ds, line.rules, line.quantity);
      NothingStale(ds, line.rules, |ds|);
      assert ds[..|ds|] == ds;
      NothingToApply(ds, line.rules, line.rules, line.quantity, next);
    }
  }

  predicate Idle(w: Work, lines: seq<Line>) {
    w.lines == lines && w.created == [] && w.fields == {} && w.removed == []
  }

  /** The line stays as it is, and nothing is to be written for it. */
  predicate StaysAs(line: Line, o: Outcome) {
    && line.(discounts := o.progress.discounts) == line
    && o.progress.created == [] && o.progress.fields == {} && o.removed == []
  }

  lemma IdleStep(w: Work, lines: seq<Line>, line: Line, o: Outcome)
    requires Idle(w, lines) && StaysAs(line, o)
    ensures Idle(Extend(w, line, o), lines + [line])
  {
  }

  lemma {:induction false} IdleFold(lines: seq<Line>, next: nat, step: Step)
    requires forall line, key :: line in lines ==> StaysAs(line, step(line, key))
    ensures Idle(Fold(lines, next, step), lines)
    decreases |lines|
  {
    if lines != [] {
      var n := |lines| - 1;
      IdleFold(lines[..n], next, step);
      var w := Fold(lines[..n], next, step);
      assert lines[n] in lines;
      IdleStep(w, lines[..n], lines[n], step(lines[n], next + |w.created|));
      assert lines == lines[..n] + [lines[n]];
    }
  }

  lemma SettledLinesStay(lines: seq<Line>, next: nat)
    requires forall line :: line in lines ==> Settled(line)
    ensures Idle(ReconcileLines(lines, next), lines)
  {
    forall line, key | line in lines ensures StaysAs(line, ReconcileLine(line, key)) {
      SettledLineStays(line, key);
    }
    IdleFold(lines, next, ReconcileLine);
  }

  /** A second call creates nothing, changes no row and deletes nothing. */
  lemma SecondCallWritesNothing(lines: seq<Line>, rows: Rows, next: nat)
    requires forall line :: line in lines ==> Settled(line)
    ensures ReconcileLines(lines, next).lines == lines
    ensures ReconcileLines(lines, next).created == [] && ReconcileLines(lines, next).removed == []
    ensures Write(rows, ReconcileLines(lines, next)) == rows
  {
    SettledLinesStay(lines, next);
  }

  predicate Plain(line: Line) {
    OnlyPromotions(line.discounts) && SingleRule(line.discounts) && DistinctRules(line.rules)
  }

  lemma LineSettles(line: Line, next: nat)
    requires Plain(line)
    ensures Settled(line.(discounts := ReconcileLine(line, next).progress.discounts))
  {
    if DiscountAmount(line) != 0.0 {
      SingleIsReconciled(line.discounts, line.rules, line.quantity, next);
    }
  }

  /** The first call settles every line on which no rule had two discounts. */
  lemma {:induction false} FirstCallSettles(lines: seq<Line>, next: nat)
    requires forall line :: line in lines ==> Plain(line)
    ensures forall line :: line in ReconcileLines(lines, next).lines ==> Settled(line)
    decreases |lines|
  {
    if lines != [] {
      var n := |lines| - 1;
      FirstCallSettles(lines[..n], next);
      assert lines[n] in lines;
      LineSettles(lines[n], next + |ReconcileLines(lines[..n], next).created|);
    }
  }
}
