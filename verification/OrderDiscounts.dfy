/** The total of an order under several discounts, which the discounts record (saleor/order/base_calculations.py). */
module OrderDiscounts {

  import opened Prices

  datatype OrderLine = OrderLine(basePrice: real, quantity: nat)

  /** What a discount is; `voucher` tells vouchers from discounts of the staff. */
  datatype Discount = Discount(voucher: bool, valueType: ValueType, value: real)

  datatype Totals = Totals(subtotal: real, shipping: real) {
    function Sum(): real { subtotal + shipping }
  }

  function Subtotal(lines: seq<OrderLine>): real {
    if lines == [] then 0.0
    else
      var n := |lines| - 1;
      Subtotal(lines[..n]) + lines[n].basePrice * lines[n].quantity as real
  }

  /** The prices of all pieces of the order. */
  function AllPieces(lines: seq<OrderLine>): seq<real> {
    if lines == [] then []
    else
      var n := |lines| - 1;
      AllPieces(lines[..n]) + Pieces(lines[n].basePrice, lines[n].quantity)
  }

  lemma {:induction false} SubtotalOfPieces(lines: seq<OrderLine>)
    ensures Subtotal(lines) == Sum(AllPieces(lines))
  {
    if lines != [] {
      var n := |lines| - 1;
      SubtotalOfPieces(lines[..n]);
      PiecesSum(lines[n].basePrice, lines[n].quantity);
      SumConcat(AllPieces(lines[..n]), Pieces(lines[n].basePrice, lines[n].quantity));
    }
  }

  /** A fixed discount of the staff is split in proportion to the subtotal and the shipping price. */
  function Split(t: Totals, value: real, a: Arithmetic): Totals {
    if t.Sum() <= 0.0 then t
    else
      var total := t.Sum() - ApplyDiscount(value, Fixed, t.Sum(), a.percentage);
      var ofSubtotal := a.share(t.subtotal, t.Sum(), total);
      Totals(t.subtotal - ofSubtotal, t.shipping - (total - ofSubtotal))
  }

  /** One discount. */
  function Step(t: Totals, d: Discount, a: Arithmetic): Totals {
    if d.voucher then t.(subtotal := ApplyDiscount(d.value, d.valueType, t.subtotal, a.percentage))
    else if d.valueType.Percentage? then
      Totals(ApplyDiscount(d.value, d.valueType, t.subtotal, a.percentage),
             ApplyDiscount(d.value, d.valueType, t.shipping, a.percentage))
    else Split(t, d.value, a)
  }

  /** The totals after the first `n` discounts. */
  function After(t: Totals, ds: seq<Discount>, a: Arithmetic, n: nat): Totals
    requires n <= |ds|
  {
    if n == 0 then t else Step(After(t, ds, a, n - 1), ds[n - 1], a)
  }

  /** What each of the first `n` discounts takes. */
  function Takens(t: Totals, ds: seq<Discount>, a: Arithmetic, n: nat): (r: seq<real>)
    requires n <= |ds|
    ensures |r| == n
  {
    if n == 0 then []
    else Takens(t, ds, a, n - 1) + [After(t, ds, a, n - 1).Sum() - After(t, ds, a, n).Sum()]
  }

  function OrderTotal(t: Totals, ds: seq<Discount>, a: Arithmetic): real {
    Max(After(t, ds, a, |ds|).Sum(), 0.0)
  }

  /** A row of the discounts of the order. */
  class OrderDiscount {
    const discount: Discount
    var amount: real

    constructor (discount: Discount, amount: real)
      ensures this.discount == discount && this.amount == amount
    {
      this.discount := discount;
      this.amount := amount;
    }

    /** Stores what the discount took; `written` tells whether the row has to be written. */
    method Record(taken: real) returns (written: bool)
      modifies this
      ensures amount == taken
      ensures written == (old(amount) != taken)
    {
      written := amount != taken;
      if written {
        amount := taken;
      }
    }
  }

  function DiscountsOf(rows: seq<OrderDiscount>): (r: seq<Discount>)
    ensures |r| == |rows|
    ensures forall i :: 0 <= i < |r| ==> r[i] == rows[i].discount
  {
    seq(|rows|, i requires 0 <= i < |rows| => rows[i].discount)
  }

  /** `base_order_subtotal`. */
  method BaseOrderSubtotal(lines: seq<OrderLine>) returns (subtotal: real)
    ensures subtotal == Subtotal(lines) == Sum(AllPieces(lines))
  {
    SubtotalOfPieces(lines);
    subtotal := 0.0;
    var i := 0;
    while i < |lines|
      invariant 0 <= i <= |lines|
      invariant subtotal == Subtotal(lines[..i])
    {
      assert lines[..i + 1][..i] == lines[..i];
      subtotal := subtotal + lines[i].basePrice * lines[i].quantity as real;
      i := i + 1;
    }
    assert lines[..i] == lines;
  }

  /** The three branches of the loop. */
  method Discounted(t: Totals, d: Discount, a: Arithmetic) returns (r: Totals, taken: real)
    ensures r == Step(t, d, a)
    ensures taken == t.Sum() - r.Sum()
  {
    var subtotal, shipping := t.subtotal, t.shipping;
    if d.voucher {
      subtotal := ApplyDiscount(d.value, d.valueType, subtotal, a.percentage);
    } else if d.valueType.Percentage? {
      subtotal := ApplyDiscount(d.value, d.valueType, subtotal, a.percentage);
      shipping := ApplyDiscount(d.value, d.valueType, shipping, a.percentage);
    } else {
      var undiscounted := subtotal + shipping;
      if undiscounted > 0.0 {
        var total := undiscounted - ApplyDiscount(d.value, d.valueType, undiscounted, a.percentage);
        var ofSubtotal := a.share(subtotal, undiscounted, total);
        var ofShipping := total - ofSubtotal;
        subtotal := subtotal - ofSubtotal;
        shipping := shipping - ofShipping;
      }
    }
    r := Totals(subtotal, shipping);
    var shippingTaken := t.shipping - shipping;
    var subtotalTaken := t.subtotal - subtotal;
    taken := shippingTaken + subtotalTaken;
  }

  function AmountsOf(rows: seq<OrderDiscount>): (r: seq<real>)
    reads rows
    ensures |r| == |rows|
    ensures forall i :: 0 <= i < |r| ==> r[i] == rows[i].amount
  {
    seq(|rows|, i requires 0 <= i < |rows| reads rows => rows[i].amount)
  }

  /** The totals after the first `n` discounts and what those took. */
  ghost predicate Applied(start: Totals, ds: seq<Discount>, a: Arithmetic, n: nat, t: Totals, takens: seq<real>) {
    n <= |ds| && t == After(start, ds, a, n) && takens == Takens(start, ds, a, n)
  }

  method DiscountNext(ghost start: Totals, ghost ds: seq<Discount>, a: Arithmetic, ghost n: nat, t: Totals, d: Discount,
                      ghost takens: seq<real>)
    returns (r: Totals, taken: real)
    requires n < |ds| && d == ds[n] && Applied(start, ds, a, n, t, takens)
    ensures Applied(start, ds, a, n + 1, r, takens + [taken])
  {
    r, taken := Discounted(t, d, a);
  }

  /** The first discounts have their new amounts, the others those of `before`; `updated` are those that changed. */
  ghost predicate Progress(rows: seq<OrderDiscount>, before: seq<real>, takens: seq<real>, updated: set<nat>)
    reads rows
  {
    && |takens| <= |rows| == |before|
    && (forall j :: 0 <= j < |rows| ==> rows[j].amount == if j < |takens| then takens[j] else before[j])
    && (forall j :: j in updated <==> 0 <= j < |takens| && takens[j] != before[j])
  }

  /** Writes the next amount if it changed. */
  method RecordNext(rows: seq<OrderDiscount>, i: nat, taken: real, updated: set<nat>,
                    ghost before: seq<real>, ghost takens: seq<real>)
    returns (more: set<nat>)
    requires forall i, j :: 0 <= i < j < |rows| ==> rows[i] != rows[j]
    requires i == |takens| < |rows| && Progress(rows, before, takens, updated)
    modifies rows[i]
    ensures Progress(rows, before, takens + [taken], more)
  {
    more := updated;
    var written := rows[i].Record(taken);
    if written {
      more := updated + {i};
    }
  }

  /** The loop of `base_order_total`: `updated` are the positions of the discounts whose amount is written. */
  method ApplyDiscounts(start: Totals, rows: seq<OrderDiscount>, a: Arithmetic)
    returns (r: Totals, updated: set<nat>)
    requires forall i, j :: 0 <= i < j < |rows| ==> rows[i] != rows[j]
    modifies rows
    ensures r == After(start, DiscountsOf(rows), a, |rows|)
    ensures AmountsOf(rows) == Takens(start, DiscountsOf(rows), a, |rows|)
    ensures forall i :: 0 <= i < |rows| ==> (i in updated <==> rows[i].amount != old(rows[i].amount))
  {
    r, updated := start, {};
    ghost var ds, before := DiscountsOf(rows), AmountsOf(rows);
    ghost var takens: seq<real> := [];
    var i := 0;
    while i < |rows|
      invariant 0 <= i <= |rows| && |takens| == i
      invariant Applied(start, ds, a, i, r, takens)
      invariant Progress(rows, before, takens, updated)
    {
      var taken;
      r, taken := DiscountNext(start, ds, a, i, r, rows[i].discount, takens);
      updated := RecordNext(rows, i, taken, updated, before, takens);
      takens := takens + [taken];
      i := i + 1;
    }
    assert AmountsOf(rows) == takens;
  }

  /** `base_order_total`. */
  method BaseOrderTotal(lines: seq<OrderLine>, basePrice: real, rows: seq<OrderDiscount>, a: Arithmetic)
    returns (total: real, updated: set<nat>)
    requires forall i, j :: 0 <= i < j < |rows| ==> rows[i] != rows[j]
    modifies rows
    ensures total == OrderTotal(Totals(Subtotal(lines), basePrice), DiscountsOf(rows), a)
    ensures total >= 0.0
    ensures AmountsOf(rows) == Takens(Totals(Subtotal(lines), basePrice), DiscountsOf(rows), a, |rows|)
    ensures forall i :: 0 <= i < |rows| ==> (i in updated <==> rows[i].amount != old(rows[i].amount))
  {
    var subtotal := BaseOrderSubtotal(lines);
    var r;
    r, updated := ApplyDiscounts(Totals(subtotal, basePrice), rows, a);
    total := Max(r.subtotal + r.shipping, 0.0);
  }

  // --- What the amounts mean ---

  predicate NonNegative(t: Totals) {
    t.subtotal >= 0.0 && t.shipping >= 0.0
  }

  predicate AllSensible(ds: seq<Discount>) {
    forall d :: d in ds ==> Sensible(d.value, d.valueType)
  }

  lemma SplitKeepsNonNegative(t: Totals, value: real, a: Arithmetic)
    requires NonNegative(t) && value >= 0.0 && IsShare(a.share)
    ensures NonNegative(Split(t, value, a))
    ensures Split(t, value, a).Sum() == FixedDiscount(t.Sum(), value)
  {
    if t.Sum() > 0.0 {
      var taken := t.Sum() - FixedDiscount(t.Sum(), value);
      assert 0.0 <= a.share(t.subtotal, t.Sum(), taken) <= t.subtotal;
    }
  }

  lemma StepKeepsNonNegative(t: Totals, d: Discount, a: Arithmetic)
    requires NonNegative(t) && Sensible(d.value, d.valueType) && IsSound(a)
    ensures NonNegative(Step(t, d, a))
    ensures Step(t, d, a).Sum() <= t.Sum()
  {
    if !d.voucher && d.valueType.Fixed? {
      SplitKeepsNonNegative(t, d.value, a);
    }
  }

  /** After every discount the subtotal and the shipping price are not negative, and the amounts account for them. */
  lemma {:induction false} NeverNegative(t: Totals, ds: seq<Discount>, a: Arithmetic, n: nat)
    requires NonNegative(t) && AllSensible(ds) && IsSound(a)
    requires n <= |ds|
    ensures NonNegative(After(t, ds, a, n))
    ensures After(t, ds, a, n).Sum() == t.Sum() - Sum(Takens(t, ds, a, n))
    ensures forall i :: 0 <= i < n ==> Takens(t, ds, a, n)[i] >= 0.0
  {
    if n > 0 {
      NeverNegative(t, ds, a, n - 1);
      assert ds[n - 1] in ds;
      StepKeepsNonNegative(After(t, ds, a, n - 1), ds[n - 1], a);
      assert Takens(t, ds, a, n)[..n - 1] == Takens(t, ds, a, n - 1);
    }
  }

  /** The total is never negative, whatever the discounts are: it is what they leave, or nothing. */
  lemma TotalNeverNegative(t: Totals, ds: seq<Discount>, a: Arithmetic)
    ensures
      var left := After(t, ds, a, |ds|).Sum();
      OrderTotal(t, ds, a) == if left > 0.0 then left else 0.0
  {
  }

  /** The total is what the recorded amounts leave; the final maximum changes nothing. */
  lemma TotalIsWhatIsLeft(t: Totals, ds: seq<Discount>, a: Arithmetic)
    requires NonNegative(t) && AllSensible(ds) && IsSound(a)
    ensures OrderTotal(t, ds, a) == t.Sum() - Sum(Takens(t, ds, a, |ds|))
    ensures OrderTotal(t, ds, a) == After(t, ds, a, |ds|).Sum()
  {
    NeverNegative(t, ds, a, |ds|);
  }

  /** A fixed discount of the staff takes its value, or all there is. */
  lemma FixedStaffDiscount(t: Totals, value: real, a: Arithmetic)
    requires NonNegative(t) && value >= 0.0 && IsShare(a.share)
    ensures t.Sum() - Step(t, Discount(false, Fixed, value), a).Sum() == Min(value, t.Sum())
  {
    SplitKeepsNonNegative(t, value, a);
  }

  /** Without rounding the subtotal and the shipping price each lose their own share of it. */
  lemma FixedStaffDiscountIsShared(t: Totals, value: real, a: Arithmetic)
    requires NonNegative(t) && value >= 0.0 && AddsUp(a.share) && t.Sum() > 0.0
    ensures
      var r := Step(t, Discount(false, Fixed, value), a);
      var amount := Min(value, t.Sum());
      && t.subtotal - r.subtotal == a.share(t.subtotal, t.Sum(), amount)
      && t.shipping - r.shipping == a.share(t.shipping, t.Sum(), amount)
  {
    var amount := Min(value, t.Sum());
    assert t.Sum() - FixedDiscount(t.Sum(), value) == amount;
    assert a.share(t.subtotal, t.Sum(), amount) + a.share(t.shipping, t.Sum(), amount) == amount;
  }

  /** A percentage of the staff is taken from the subtotal and from the shipping price. */
  lemma PercentageStaffDiscount(t: Totals, value: real, a: Arithmetic)
    ensures Step(t, Discount(false, Percentage, value), a)
         == Totals(a.percentage(t.subtotal, value), a.percentage(t.shipping, value))
  {
  }

  /** A voucher never touches the shipping price; a fixed one takes its value or the whole subtotal, and a percentage
      leaves what is left of the subtotal. */
  lemma VoucherLeavesShipping(t: Totals, valueType: ValueType, value: real, a: Arithmetic)
    requires NonNegative(t) && value >= 0.0
    ensures
      var r := Step(t, Discount(true, valueType, value), a);
      && r.shipping == t.shipping
      && match valueType
         case Fixed => t.subtotal - r.subtotal == if value < t.subtotal then value else t.subtotal
         case Percentage => r.subtotal == a.percentage(t.subtotal, value)
  {
  }
}
