/**
 Bringing the promotion discounts of checkout lines in line with the current rules
 (saleor/discount/utils.py).
 */
module PromotionDiscounts {

  import opened Wrappers

  /** The fields that a rule determines. */
  datatype Values = Values(valueType: string, value: real, amount: real, name: string, translated: Option<string>)

  datatype Field = ValueType | Value | Amount | Name | Translated

  /** A `CheckoutLineDiscount`; `promotion` tells whether its type is that of a promotion. */
  datatype Discount = Discount(id: nat, promotion: bool, rule: Option<nat>, values: Values)

  /** A current rule; `amount` is its discount of one piece, and the names are those to be shown. */
  datatype RuleInfo = RuleInfo(rule: nat, valueType: string, value: real, amount: real, name: string,
                               translated: Option<string>)

  datatype Line = Line(quantity: nat, price: Option<real>, discounted: Option<real>, rules: seq<RuleInfo>,
                       discounts: seq<Discount>)

  type Rows = map<nat, Discount>

  /** The price of a quantity of pieces. */
  function Times(price: real, quantity: nat): real {
    if quantity == 0 then 0.0 else Times(price, quantity - 1) + price
  }

  lemma {:induction false} TimesIsProduct(price: real, quantity: nat)
    ensures Times(price, quantity) == price * quantity as real
  {
    if quantity > 0 {
      TimesIsProduct(price, quantity - 1);
    }
  }

  /** `_get_discount_amount`. */
  function DiscountAmount(line: Line): real {
    if line.price.None? || line.discounted.None? || line.price == line.discounted then 0.0
    else Times(line.price.value - line.discounted.value, line.quantity)
  }

  /** What a rule prescribes for a line; `_get_rule_discount_amount` gives the amount. */
  function RuleValues(r: RuleInfo, quantity: nat): Values {
    Values(r.valueType, r.value, Times(r.amount, quantity), r.name, r.translated)
  }

  /** The fields that `_update_line_discount` changes. */
  function Changed(old_: Values, new_: Values): set<Field> {
    (if old_.valueType != new_.valueType then {ValueType} else {})
    + (if old_.value != new_.value then {Value} else {})
    + (if old_.amount != new_.amount then {Amount} else {})
    + (if old_.name != new_.name then {Name} else {})
    + (if old_.translated != new_.translated then {Translated} else {})
  }

  /** A row after `bulk_update` wrote these fields of an object. */
  function Merge(row: Values, changed: Values, fields: set<Field>): Values {
    Values(if ValueType in fields then changed.valueType else row.valueType,
           if Value in fields then changed.value else row.value,
           if Amount in fields then changed.amount else row.amount,
           if Name in fields then changed.name else row.name,
           if Translated in fields then changed.translated else row.translated)
  }

  // --- One line ---

  predicate Current(rules: seq<RuleInfo>, rule: Option<nat>) {
    exists r :: r in rules && rule == Some(r.rule)
  }

  /** The last promotion discount of a rule, which is the one in the dictionary by rule. */
  function LastIndex(ds: seq<Discount>, rule: Option<nat>): (r: Option<nat>)
    ensures r.Some? ==> r.value < |ds| && ds[r.value].promotion && ds[r.value].rule == rule
    ensures r.Some? ==> forall j :: r.value < j < |ds| && ds[j].promotion ==> ds[j].rule != rule
    ensures r.None? ==> forall j :: 0 <= j < |ds| && ds[j].promotion ==> ds[j].rule != rule
  {
    if ds == [] then None
    else
      var n := |ds| - 1;
      if ds[n].promotion && ds[n].rule == rule then Some(n) else LastIndex(ds[..n], rule)
  }

  /** In the dictionary, for a rule that is not current any more. */
  predicate Stale(ds: seq<Discount>, rules: seq<RuleInfo>, j: nat)
    requires j < |ds|
  {
    ds[j].promotion && LastIndex(ds, ds[j].rule) == Some(j) && !Current(rules, ds[j].rule)
  }

  function Kept(ds: seq<Discount>, rules: seq<RuleInfo>, n: nat): (r: seq<Discount>)
    requires n <= |ds|
    ensures |r| <= n
  {
    if n == 0 then []
    else Kept(ds, rules, n - 1) + if Stale(ds, rules, n - 1) then [] else [ds[n - 1]]
  }

  /** `_get_discounts_that_are_not_valid_anymore`. */
  function Removed(ds: seq<Discount>, rules: seq<RuleInfo>, n: nat): seq<nat>
    requires n <= |ds|
  {
    if n == 0 then []
    else Removed(ds, rules, n - 1) + if Stale(ds, rules, n - 1) then [ds[n - 1].id] else []
  }

  /** The discounts of a line and what has to be written for them. */
  datatype Progress = Progress(discounts: seq<Discount>, created: seq<Discount>, updated: seq<Discount>,
                               fields: set<Field>)

  /** The step for one rule; `kept` are the discounts of which the dictionary was made. */
  function ApplyRule(p: Progress, kept: seq<Discount>, r: RuleInfo, quantity: nat, next: nat): (q: Progress)
    requires |kept| <= |p.discounts|
    ensures |kept| <= |q.discounts|
  {
    var found := LastIndex(kept, Some(r.rule));
    var values := RuleValues(r, quantity);
    if found.None? then
      var new_ := Discount(next + |p.created|, true, Some(r.rule), values);
      p.(discounts := p.discounts + [new_], created := p.created + [new_])
    else
      var j := found.value;
      var revised := p.discounts[j].(values := values);
      p.(discounts := p.discounts[j := revised], updated := p.updated + [revised],
         fields := p.fields + Changed(p.discounts[j].values, values))
  }

  function ApplyRules(kept: seq<Discount>, rules: seq<RuleInfo>, quantity: nat, next: nat): (p: Progress)
    ensures |kept| <= |p.discounts|
    decreases |rules|
  {
    if rules == [] then Progress(kept, [], [], {})
    else
      var n := |rules| - 1;
      ApplyRule(ApplyRules(kept, rules[..n], quantity, next), kept, rules[n], quantity, next)
  }

  function PromotionIds(ds: seq<Discount>): seq<nat> {
    if ds == [] then []
    else
      var n := |ds| - 1;
      PromotionIds(ds[..n]) + if ds[n].promotion then [ds[n].id] else []
  }

  /** What a line becomes, and the keys of the rows to be deleted. */
  datatype Outcome = Outcome(progress: Progress, removed: seq<nat>)

  function ReconcileLine(line: Line, next: nat): Outcome {
    if DiscountAmount(line) == 0.0 then Outcome(Progress([], [], [], {}), PromotionIds(line.discounts))
    else
      var n := |line.discounts|;
      Outcome(ApplyRules(Kept(line.discounts, line.rules, n), line.rules, line.quantity, next),
              Removed(line.discounts, line.rules, n))
  }

  // --- All lines ---

  /** Everything that has to be written for the lines so far. */
  datatype Work = Work(lines: seq<Line>, created: seq<Discount>, updated: seq<Discount>, fields: set<Field>,
                       removed: seq<nat>)

  /** The work with that for one more line. */
  function Extend(w: Work, line: Line, o: Outcome): Work {
    Work(w.lines + [line.(discounts := o.progress.discounts)], w.created + o.progress.created,
         w.updated + o.progress.updated, w.fields + o.progress.fields, w.removed + o.removed)
  }

  /** What becomes of a line; the first new key is given. */
  type Step = (Line, nat) -> Outcome

  /** The work for all lines, one after the other; `next` is the first new key. */
  function Fold(lines: seq<Line>, next: nat, step: Step): (w: Work)
    ensures |w.lines| == |lines|
    decreases |lines|
  {
    if lines == [] then Work([], [], [], {}, [])
    else
      var n := |lines| - 1;
      var w := Fold(lines[..n], next, step);
      Extend(w, lines[n], step(lines[n], next + |w.created|))
  }

  function ReconcileLines(lines: seq<Line>, next: nat): (w: Work)
    ensures |w.lines| == |lines|
  {
    Fold(lines, next, ReconcileLine)
  }

  function Without(rows: Rows, ids: seq<nat>): Rows {
    map id | id in rows && id !in ids :: rows[id]
  }

  function WithCreated(rows: Rows, created: seq<Discount>): Rows {
    if created == [] then rows
    else
      var n := |created| - 1;
      WithCreated(rows, created[..n])[created[n].id := created[n]]
  }

  /** The first object with this key, whose `WHEN` wins. */
  function FirstById(updated: seq<Discount>, id: nat): (r: Option<Discount>)
    ensures r.Some? ==> r.value in updated && r.value.id == id
    ensures r.None? ==> forall d :: d in updated ==> d.id != id
  {
    if updated == [] then None
    else if updated[0].id == id then Some(updated[0])
    else FirstById(updated[1..], id)
  }

  function Updated(row: Discount, id: nat, updated: seq<Discount>, fields: set<Field>): Discount {
    var found := FirstById(updated, id);
    if found.None? then row else row.(values := Merge(row.values, found.value.values, fields))
  }

  /** `bulk_update`: the union of all changed fields is written for every object. */
  function WithUpdated(rows: Rows, updated: seq<Discount>, fields: set<Field>): Rows {
    map id | id in rows :: Updated(rows[id], id, updated, fields)
  }

  function Write(rows: Rows, w: Work): Rows {
    Without(WithUpdated(WithCreated(rows, w.created), w.updated, w.fields), w.removed)
  }
}
