/**
 The prices of checkout lines and the split of an entire-order discount over them
 (saleor/checkout/base_calculations.py, saleor/checkout/calculations.py).
 */
module CheckoutDiscounts {

  import opened Wrappers
  import opened Prices

  /** A voucher of a line; `once` is `apply_once_per_order`. */
  datatype LineVoucher = LineVoucher(valueType: ValueType, value: real, once: bool)

  datatype Line = Line(price: real, quantity: nat, discounts: seq<real>, voucher: Option<LineVoucher>)

  type Lines = lines: seq<Line> | forall l :: l in lines ==> l.quantity >= 1 witness []

  datatype VoucherKind = EntireOrder | Shipping | SpecificProduct

  datatype CheckoutVoucher = CheckoutVoucher(kind: VoucherKind, once: bool)

  // --- The price of a line ---

  /** `Voucher.get_discount_amount_for`. */
  function DiscountAmount(v: LineVoucher, price: real, a: Arithmetic): real {
    var after := ApplyDiscount(v.value, v.valueType, price, a.percentage);
    if after < 0.0 then price else price - after
  }

  /** The total of a line after its voucher. */
  function AfterVoucher(total: real, quantity: nat, v: LineVoucher, a: Arithmetic): real
    requires quantity >= 1
  {
    var unit := a.divide(total, quantity);
    if v.once then unit * (quantity - 1) as real + Max(unit - DiscountAmount(v, unit, a), 0.0)
    else if v.valueType.Percentage? then Max(total - DiscountAmount(v, total, a), 0.0)
    else Max(total - DiscountAmount(v, unit, a) * quantity as real, 0.0)
  }

  /** The price of a line after its promotions and before its voucher. */
  function AfterPromotions(line: Line): real {
    line.price * line.quantity as real - Sum(line.discounts)
  }

  /** `calculate_base_line_total_price`. */
  function LineTotal(line: Line, a: Arithmetic): real
    requires line.quantity >= 1
  {
    var total := AfterPromotions(line);
    a.round(if line.voucher.Some? then AfterVoucher(total, line.quantity, line.voucher.value, a) else total)
  }

  /** `calculate_base_line_unit_price`. */
  function LineUnit(line: Line, a: Arithmetic): real
    requires line.quantity >= 1
  {
    a.round(a.divide(LineTotal(line, a), line.quantity))
  }

  function Totals(lines: Lines, a: Arithmetic): (r: seq<real>)
    ensures |r| == |lines|
    ensures forall i :: 0 <= i < |r| ==> lines[i] in lines && r[i] == LineTotal(lines[i], a)
  {
    seq(|lines|, i requires 0 <= i < |lines| => assert lines[i] in lines; LineTotal(lines[i], a))
  }

  /** What `_get_checkout_base_prices` passes on for a line: its unit price times its quantity. */
  function Owns(lines: Lines, a: Arithmetic): (r: seq<real>)
    ensures |r| == |lines|
    ensures forall i :: 0 <= i < |r| ==>
      lines[i] in lines && r[i] == LineUnit(lines[i], a) * lines[i].quantity as real
  {
    seq(|lines|, i requires 0 <= i < |lines| =>
      assert lines[i] in lines; LineUnit(lines[i], a) * lines[i].quantity as real)
  }

  // --- The split of the discount ---

  /** Only a voucher for the entire order that applies to all of it is split over the lines. */
  predicate Splits(v: Option<CheckoutVoucher>) {
    v.Some? && !v.value.once && v.value.kind == EntireOrder
  }

  /** A voucher for the entire order, and not for its cheapest piece. */
  const ENTIRE_ORDER := Some(CheckoutVoucher(EntireOrder, false))

  /** What is in the line totals or the shipping price already, or nothing. */
  predicate LeavesLines(v: Option<CheckoutVoucher>) {
    v.None? || v.value.once || v.value.kind == Shipping || v.value.kind == SpecificProduct
  }

  function Others(totals: seq<real>, i: nat): seq<real>
    requires i < |totals|
  {
    totals[..i] + totals[i + 1..]
  }

  function SharesSum(parts: seq<real>, whole: real, discount: real, share: Share): real {
    if parts == [] then 0.0
    else SharesSum(parts[..|parts| - 1], whole, discount, share) + share(parts[|parts| - 1], whole, discount)
  }

  /** The total price that a line assumes: the totals of the others and its own. */
  function Assumed(totals: seq<real>, i: nat, own: real): real
    requires i < |totals|
  {
    Sum(Others(totals, i)) + own
  }

  /** The discount of one of several lines; the last one gets what the others leave. */
  function LineDiscount(totals: seq<real>, i: nat, own: real, discount: real, share: Share): real
    requires i < |totals|
  {
    if i == |totals| - 1 then discount - SharesSum(Others(totals, i), Assumed(totals, i, own), discount, share)
    else share(own, Assumed(totals, i, own), discount)
  }

  /** `apply_checkout_discount_on_checkout_line`; dividing by a total of zero raises. */
  function DiscountedLine(v: Option<CheckoutVoucher>, totals: seq<real>, i: nat, own: real, discount: real,
                          share: Share)
    : Option<real>
    requires i < |totals|
  {
    if !Splits(v) then Some(own)
    else if |totals| == 1 then Some(Max(own - discount, 0.0))
    else if Assumed(totals, i, own) == 0.0 then None
    else Some(Max(own - LineDiscount(totals, i, own, discount, share), 0.0))
  }

  lemma {:induction false} SumOthers(totals: seq<real>, i: nat)
    requires i < |totals|
    ensures Sum(Others(totals, i)) == Sum(totals) - totals[i]
  {
    SumConcat(totals[..i], totals[i + 1..]);
    SumConcat(totals[..i + 1], totals[i + 1..]);
    assert totals == totals[..i + 1] + totals[i + 1..];
    assert totals[..i + 1][..i] == totals[..i];
  }

  /** The discounts of the first `n` lines, before they are limited by the prices. */
  function DiscountsSum(totals: seq<real>, owns: seq<real>, discount: real, share: Share, n: nat): real
    requires n <= |totals| == |owns|
  {
    if n == 0 then 0.0
    else DiscountsSum(totals, owns, discount, share, n - 1) + LineDiscount(totals, n - 1, owns[n - 1], discount, share)
  }

  /** What the lines before the last take as their shares of the totals that they assume. */
  function OwnShares(totals: seq<real>, owns: seq<real>, discount: real, share: Share, n: nat): real
    requires n <= |totals| == |owns|
  {
    if n == 0 then 0.0
    else
      OwnShares(totals, owns, discount, share, n - 1)
      + share(owns[n - 1], Assumed(totals, n - 1, owns[n - 1]), discount)
  }

  lemma {:induction false} DiscountsBeforeLast(totals: seq<real>, owns: seq<real>, discount: real, share: Share, n: nat)
    requires n < |totals| == |owns|
    ensures DiscountsSum(totals, owns, discount, share, n) == OwnShares(totals, owns, discount, share, n)
  {
    if n > 0 {
      DiscountsBeforeLast(totals, owns, discount, share, n - 1);
    }
  }

  /** What the last line thinks the others took. */
  function LastView(totals: seq<real>, owns: seq<real>, discount: real, share: Share): real
    requires 1 <= |totals| == |owns|
  {
    var last := |totals| - 1;
    SharesSum(Others(totals, last), Assumed(totals, last, owns[last]), discount, share)
  }

  lemma DiscountsAndLastView(totals: seq<real>, owns: seq<real>, discount: real, share: Share)
    requires 1 <= |totals| == |owns|
    ensures DiscountsSum(totals, owns, discount, share, |totals|)
         == OwnShares(totals, owns, discount, share, |totals| - 1)
             + (discount - LastView(totals, owns, discount, share))
  {
    DiscountsBeforeLast(totals, owns, discount, share, |totals| - 1);
  }

  lemma {:induction false} AssumedTotal(totals: seq<real>, i: nat)
    requires i < |totals|
    ensures Assumed(totals, i, totals[i]) == Sum(totals)
  {
    SumOthers(totals, i);
  }

  lemma {:induction false} SameShares(totals: seq<real>, discount: real, share: Share, n: nat)
    requires n <= |totals|
    ensures OwnShares(totals, totals, discount, share, n) == SharesSum(totals[..n], Sum(totals), discount, share)
  {
    if n > 0 {
      SameShares(totals, discount, share, n - 1);
      AssumedTotal(totals, n - 1);
      assert totals[..n][..n - 1] == totals[..n - 1];
    }
  }

  lemma ExactUnitsSum(totals: seq<real>, discount: real, share: Share)
    requires 2 <= |totals|
    ensures DiscountsSum(totals, totals, discount, share, |totals|) == discount
  {
    var last := |totals| - 1;
    DiscountsAndLastView(totals, totals, discount, share);
    SameShares(totals, discount, share, last);
    AssumedTotal(totals, last);
    assert Others(totals, last) == totals[..last];
  }

  // --- Every line gets its share ---

  predicate NoneNegative(prices: seq<real>) {
    forall i :: 0 <= i < |prices| ==> prices[i] >= 0.0
  }

  lemma {:induction false} SumNonNegative(prices: seq<real>)
    requires NoneNegative(prices)
    ensures Sum(prices) >= 0.0
  {
    if prices != [] {
      SumNonNegative(prices[..|prices| - 1]);
    }
  }

  lemma ExactShareAdds(a: real, b: real, whole: real, amount: real)
    requires whole > 0.0
    ensures ExactShare(a + b, whole, amount) == ExactShare(a, whole, amount) + ExactShare(b, whole, amount)
  {
    QuotientOfSum(a, b, a / whole, b / whole, (a + b) / whole, whole, amount);
  }

  lemma QuotientOfSum(a: real, b: real, f: real, g: real, h: real, whole: real, amount: real)
    requires whole > 0.0 && f * whole == a && g * whole == b && h * whole == a + b
    ensures h * amount == f * amount + g * amount
  {
    assert (h - f - g) * whole == 0.0;
    assert h == f + g;
  }

  lemma {:induction false} ExactSharesSum(parts: seq<real>, whole: real, discount: real)
    requires whole > 0.0
    ensures SharesSum(parts, whole, discount, ExactShare) == ExactShare(Sum(parts), whole, discount)
  {
    if parts == [] {
      assert 0.0 / whole == 0.0;
    } else {
      var n := |parts| - 1;
      ExactSharesSum(parts[..n], whole, discount);
      ExactShareAdds(Sum(parts[..n]), parts[n], whole, discount);
    }
  }

  lemma WholeShare(whole: real, amount: real)
    requires whole > 0.0
    ensures ExactShare(whole, whole, amount) == amount
  {
    assert whole / whole == 1.0;
  }

  /** Every line, also the last one, has a discount of the share of its own price in the total that it assumes. */
  lemma OwnShareIsDiscount(totals: seq<real>, i: nat, own: real, discount: real)
    requires i < |totals| && Assumed(totals, i, own) > 0.0
    ensures LineDiscount(totals, i, own, discount, ExactShare) == ExactShare(own, Assumed(totals, i, own), discount)
  {
    if i == |totals| - 1 {
      var whole := Assumed(totals, i, own);
      ExactSharesSum(Others(totals, i), whole, discount);
      ExactShareAdds(Sum(Others(totals, i)), own, whole, discount);
      WholeShare(whole, discount);
    }
  }

  /** With `f` the quotient of the part and the whole. */
  lemma ShareAgainstPart(f: real, part: real, whole: real, amount: real)
    requires f * whole == part && part >= 0.0 && whole > 0.0 && amount >= 0.0
    ensures f * amount >= 0.0
    ensures f * amount <= part <==> part == 0.0 || amount <= whole
    ensures amount >= whole ==> f * amount >= part
  {
    ProductSign(f, whole);
    ProductSign(f, amount);
    Distributes(amount, whole, f);
    ProductSign(amount - whole, f);
    ProductSign(whole - amount, f);
  }

  /** A line is limited to its price exactly when the discount exceeds the total that the line assumes. */
  lemma LimitedLine(totals: seq<real>, i: nat, own: real, discount: real)
    requires i < |totals| && own >= 0.0 && Assumed(totals, i, own) > 0.0 && discount >= 0.0
    ensures LineDiscount(totals, i, own, discount, ExactShare) >= 0.0
    ensures LineDiscount(totals, i, own, discount, ExactShare) <= own <==>
      own == 0.0 || discount <= Assumed(totals, i, own)
  {
    OwnShareIsDiscount(totals, i, own, discount);
    var whole := Assumed(totals, i, own);
    ShareAgainstPart(own / whole, own, whole, discount);
  }

  /** What the price of a line falls by: its discount, up to the price. */
  function Taken(totals: seq<real>, i: nat, own: real, discount: real, share: Share): real
    requires i < |totals|
  {
    Min(LineDiscount(totals, i, own, discount, share), own)
  }

  /** The same as a part of the discount. */
  function TakenPart(own: real, rest: real, discount: real): real {
    ExactShare(own, Max(discount, rest + own), discount)
  }

  lemma TakenIsPart(totals: seq<real>, i: nat, own: real, discount: real)
    requires i < |totals| && own >= 0.0 && Assumed(totals, i, own) > 0.0 && discount >= 0.0
    ensures Taken(totals, i, own, discount, ExactShare) == TakenPart(own, Sum(Others(totals, i)), discount)
  {
    OwnShareIsDiscount(totals, i, own, discount);
    var whole := Assumed(totals, i, own);
    ShareAgainstPart(own / whole, own, whole, discount);
    if discount > whole {
      FullShare(own, discount);
    }
  }

  /** Every line loses the share of its own price in the larger of the discount and the total that it assumes. */
  lemma EveryLineTakesItsOwnShare(totals: seq<real>, i: nat, own: real, discount: real)
    requires 2 <= |totals| && i < |totals|
    requires own >= 0.0 && Assumed(totals, i, own) > 0.0 && discount >= 0.0
    ensures DiscountedLine(ENTIRE_ORDER, totals, i, own, discount, ExactShare)
         == Some(own - ExactShare(own, Max(discount, Assumed(totals, i, own)), discount))
  {
    TakenIsPart(totals, i, own, discount);
  }

  lemma {:induction false} PartOfSum(totals: seq<real>, i: nat)
    requires NoneNegative(totals) && i < |totals|
    ensures totals[i] <= Sum(totals)
  {
    var n := |totals| - 1;
    SumNonNegative(totals[..n]);
    if i < n {
      PartOfSum(totals[..n], i);
    }
  }

  /** With unit prices that need no rounding, a discount up to the subtotal limits no line. */
  lemma NoLineIsClamped(totals: seq<real>, i: nat, discount: real)
    requires 2 <= |totals| && i < |totals| && NoneNegative(totals) && Sum(totals) > 0.0
    requires 0.0 <= discount <= Sum(totals)
    ensures 0.0 <= LineDiscount(totals, i, totals[i], discount, ExactShare) <= totals[i]
  {
    AssumedTotal(totals, i);
    LimitedLine(totals, i, totals[i], discount);
  }

  /** With unit prices that need no rounding, every line loses its share in the total of all lines. */
  lemma EveryLineGetsItsShare(totals: seq<real>, i: nat, discount: real)
    requires 2 <= |totals| && i < |totals| && NoneNegative(totals) && Sum(totals) > 0.0
    requires 0.0 <= discount <= Sum(totals)
    ensures DiscountedLine(ENTIRE_ORDER, totals, i, totals[i], discount, ExactShare)
         == Some(totals[i] - ExactShare(totals[i], Sum(totals), discount))
  {
    AssumedTotal(totals, i);
    EveryLineTakesItsOwnShare(totals, i, totals[i], discount);
  }

  lemma FullShare(part: real, whole: real)
    requires whole > 0.0
    ensures ExactShare(part, whole, whole) == part
  {
  }

  // --- The checkout ---

  /** The prices of the lines before they are rounded, or nothing when a division raises. */
  function DiscountedLines(v: Option<CheckoutVoucher>, totals: seq<real>, owns: seq<real>, discount: real, share: Share,
                           n: nat): (r: Option<seq<real>>)
    requires n <= |totals| == |owns|
    ensures r.Some? ==> |r.value| == n
  {
    if n == 0 then Some([])
    else
      var before := DiscountedLines(v, totals, owns, discount, share, n - 1);
      var last := DiscountedLine(v, totals, n - 1, owns[n - 1], discount, share);
      if before.None? || last.None? then None else Some(before.value + [last.value])
  }

  function Rounded(prices: seq<real>, round: real -> real): (r: seq<real>)
    ensures |r| == |prices|
    ensures forall i :: 0 <= i < |r| ==> r[i] == round(prices[i])
  {
    seq(|prices|, i requires 0 <= i < |prices| => round(prices[i]))
  }

  /** The subtotal of `checkout_total`, which does not look at single lines. */
  function SimpleSubtotal(v: Option<CheckoutVoucher>, totals: seq<real>, discount: real): real {
    if Splits(v) then Max(0.0, Sum(totals) - discount) else Sum(totals)
  }

  // --- What is taken from all lines together ---

  /** What the discount takes from all lines, unless a division raises. */
  function TakenFrom(v: Option<CheckoutVoucher>, totals: seq<real>, owns: seq<real>, discount: real, share: Share)
    : Option<real>
    requires |totals| == |owns|
  {
    var r := DiscountedLines(v, totals, owns, discount, share, |totals|);
    if r.None? then None else Some(Sum(owns) - Sum(r.value))
  }

  /** What every line loses. */
  function Takens(totals: seq<real>, owns: seq<real>, discount: real, share: Share): (r: seq<real>)
    requires |totals| == |owns|
    ensures |r| == |totals|
    ensures forall i :: 0 <= i < |r| ==> r[i] == Taken(totals, i, owns[i], discount, share)
  {
    seq(|totals|, i requires 0 <= i < |totals| => Taken(totals, i, owns[i], discount, share))
  }

  predicate NoneRaises(totals: seq<real>, owns: seq<real>)
    requires |totals| == |owns|
  {
    forall i :: 0 <= i < |totals| ==> Assumed(totals, i, owns[i]) != 0.0
  }

  /** What is left of every price. */
  predicate LessBy(a: seq<real>, left: seq<real>, taken: seq<real>) {
    |a| == |left| == |taken| && forall i :: 0 <= i < |a| ==> left[i] == a[i] - taken[i]
  }

  lemma {:induction false} SumDifference(a: seq<real>, b: seq<real>, c: seq<real>)
    requires LessBy(a, b, c)
    ensures Sum(b) == Sum(a) - Sum(c)
  {
    if a != [] {
      var n := |a| - 1;
      SumDifference(a[..n], b[..n], c[..n]);
    }
  }

  predicate IsTimes(a: real, b: real, x: real) {
    a == b * x
  }

  lemma {:induction false} SumScales(a: seq<real>, b: seq<real>, x: real)
    requires |a| == |b| && forall i :: 0 <= i < |a| ==> IsTimes(a[i], b[i], x)
    ensures IsTimes(Sum(a), Sum(b), x)
  {
    if a != [] {
      var n := |a| - 1;
      SumScales(a[..n], b[..n], x);
      Distributes(Sum(b[..n]), b[n], x);
    }
  }

  lemma {:induction false} SumGrows(a: seq<real>, b: seq<real>)
    requires |a| == |b| && AtMost(a, b)
    ensures Sum(a) <= Sum(b) && (Sum(a) == Sum(b) <==> a == b)
  {
    if a != [] {
      var n := |a| - 1;
      SumGrows(a[..n], b[..n]);
      assert a == a[..n] + [a[n]] && b == b[..n] + [b[n]];
    }
  }

  lemma SumOfTwo(x: real, y: real)
    ensures Sum([x, y]) == x + y
  {
    assert [x, y][..1] == [x] && [x][..0] == [];
    assert Sum([x]) == x;
  }

  lemma DiscountedIsLessTaken(totals: seq<real>, i: nat, own: real, discount: real,
                              share: Share)
    requires 2 <= |totals| && i < |totals| && Assumed(totals, i, own) != 0.0
    ensures DiscountedLine(ENTIRE_ORDER, totals, i, own, discount, share)
         == Some(own - Taken(totals, i, own, discount, share))
  {
  }

  lemma {:induction false} LinesLessTaken(totals: seq<real>, owns: seq<real>,
                                          discount: real, share: Share, n: nat)
    requires 2 <= |totals| == |owns| && n <= |totals| && NoneRaises(totals, owns)
    ensures DiscountedLines(ENTIRE_ORDER, totals, owns, discount, share, n).Some?
    ensures LessBy(owns[..n], DiscountedLines(ENTIRE_ORDER, totals, owns, discount, share, n).value,
                   Takens(totals, owns, discount, share)[..n])
  {
    if n > 0 {
      LinesLessTaken(totals, owns, discount, share, n - 1);
      DiscountedIsLessTaken(totals, n - 1, owns[n - 1], discount, share);
    }
  }

  lemma AllLessTaken(totals: seq<real>, owns: seq<real>, discount: real, share: Share)
    requires 2 <= |totals| == |owns| && NoneRaises(totals, owns)
    ensures DiscountedLines(ENTIRE_ORDER, totals, owns, discount, share, |totals|).Some?
    ensures LessBy(owns, DiscountedLines(ENTIRE_ORDER, totals, owns, discount, share, |totals|).value,
                   Takens(totals, owns, discount, share))
  {
    LinesLessTaken(totals, owns, discount, share, |totals|);
    assert owns[..|totals|] == owns;
    var takens := Takens(totals, owns, discount, share);
    assert takens[..|totals|] == takens;
  }

  lemma TakenFromAll(totals: seq<real>, owns: seq<real>, discount: real, share: Share)
    requires 2 <= |totals| == |owns| && NoneRaises(totals, owns)
    ensures TakenFrom(ENTIRE_ORDER, totals, owns, discount, share) == Some(Sum(Takens(totals, owns, discount, share)))
  {
    AllLessTaken(totals, owns, discount, share);
    SumDifference(owns, DiscountedLines(ENTIRE_ORDER, totals, owns, discount, share, |totals|).value,
                  Takens(totals, owns, discount, share));
  }

  predicate NoneLimited(totals: seq<real>, owns: seq<real>, discount: real, share: Share)
    requires |totals| == |owns|
  {
    forall i :: 0 <= i < |totals| ==> LineDiscount(totals, i, owns[i], discount, share) <= owns[i]
  }

  function LineDiscounts(totals: seq<real>, owns: seq<real>, discount: real, share: Share): (r: seq<real>)
    requires |totals| == |owns|
    ensures |r| == |totals|
    ensures forall i :: 0 <= i < |r| ==> r[i] == LineDiscount(totals, i, owns[i], discount, share)
  {
    seq(|totals|, i requires 0 <= i < |totals| => LineDiscount(totals, i, owns[i], discount, share))
  }

  lemma {:induction false} SumOfDiscounts(totals: seq<real>, owns: seq<real>, discount: real, share: Share, n: nat)
    requires n <= |totals| == |owns|
    ensures DiscountsSum(totals, owns, discount, share, n) == Sum(LineDiscounts(totals, owns, discount, share)[..n])
  {
    if n > 0 {
      SumOfDiscounts(totals, owns, discount, share, n - 1);
      var all := LineDiscounts(totals, owns, discount, share);
      assert all[..n][..n - 1] == all[..n - 1];
    }
  }

  lemma TakenUpToDiscounts(totals: seq<real>, owns: seq<real>, discount: real, share: Share)
    requires |totals| == |owns|
    ensures
      var taken := Sum(Takens(totals, owns, discount, share));
      var all := DiscountsSum(totals, owns, discount, share, |totals|);
      taken <= all && (taken == all <==> NoneLimited(totals, owns, discount, share))
  {
    var takens, discounts := Takens(totals, owns, discount, share), LineDiscounts(totals, owns, discount, share);
    SumOfDiscounts(totals, owns, discount, share, |totals|);
    assert discounts[..|totals|] == discounts;
    SumGrows(takens, discounts);
    if NoneLimited(totals, owns, discount, share) {
      assert takens == discounts;
    } else {
      var i :| 0 <= i < |totals| && LineDiscount(totals, i, owns[i], discount, share) > owns[i];
      assert takens[i] < discounts[i];
    }
  }

  /**
   * With unit prices that need no rounding, and for any rounding of the shares, the lines lose at most the discount,
   * and exactly the discount when none of them is limited.
   */
  lemma ExactUnitsAddUp(totals: seq<real>, discount: real, share: Share)
    requires 2 <= |totals| && Sum(totals) != 0.0
    ensures
      var taken := TakenFrom(ENTIRE_ORDER, totals, totals, discount, share);
      && taken.Some? && taken.value <= discount
      && (taken.value == discount <==> NoneLimited(totals, totals, discount, share))
  {
    forall i | 0 <= i < |totals| ensures Assumed(totals, i, totals[i]) != 0.0 {
      AssumedTotal(totals, i);
    }
    TakenFromAll(totals, totals, discount, share);
    TakenUpToDiscounts(totals, totals, discount, share);
    ExactUnitsSum(totals, discount, share);
  }

  /** Two such lines lose the discount for any rounding of the shares that keeps them in bounds. */
  lemma TwoExactUnitsAddUp(t: real, u: real, discount: real, share: Share)
    requires IsShare(share) && t >= 0.0 && u >= 0.0 && t + u > 0.0 && 0.0 <= discount <= t + u
    ensures TakenFrom(ENTIRE_ORDER, [t, u], [t, u], discount, share) == Some(discount)
  {
    var totals := [t, u];
    TwoOthers(t, u);
    AssumedTotal(totals, 0);
    assert Sum(totals) == t + u;
    ExactUnitsAddUp(totals, discount, share);
    assert [t][..0] == [];
    assert SharesSum([t], t + u, discount, share) == share(t, t + u, discount);
    assert LineDiscount(totals, 0, t, discount, share) == share(t, u + t, discount);
    assert LineDiscount(totals, 1, u, discount, share) == discount - share(t, t + u, discount);
  }

  // --- When the discounts add up ---

  /** Every line assumes a total that is worth something. */
  predicate AssumesWorth(totals: seq<real>, owns: seq<real>)
    requires |totals| == |owns|
  {
    forall i :: 0 <= i < |totals| ==> Assumed(totals, i, owns[i]) > 0.0
  }

  /** Beside every line there are others that are worth something. */
  predicate OthersAreWorth(totals: seq<real>) {
    forall i :: 0 <= i < |totals| ==> Sum(Others(totals, i)) > 0.0
  }

  predicate AtMost(a: seq<real>, b: seq<real>)
    requires |a| == |b|
  {
    forall i :: 0 <= i < |a| ==> a[i] <= b[i]
  }

  lemma {:induction false} SumOfShares(shares: seq<real>, parts: seq<real>, whole: real, discount: real)
    requires |shares| == |parts| && forall i :: 0 <= i < |parts| ==> shares[i] == ExactShare(parts[i], whole, discount)
    ensures Sum(shares) == SharesSum(parts, whole, discount, ExactShare)
  {
    if parts != [] {
      var n := |parts| - 1;
      SumOfShares(shares[..n], parts[..n], whole, discount);
    }
  }

  /** Lines with prices that need no rounding lose the discount, or all there is. */
  lemma TakenOfTotals(totals: seq<real>, discount: real)
    requires NoneNegative(totals) && Sum(totals) > 0.0 && discount >= 0.0
    ensures Sum(Takens(totals, totals, discount, ExactShare)) == Min(discount, Sum(totals))
  {
    var whole := Max(discount, Sum(totals));
    var takens := Takens(totals, totals, discount, ExactShare);
    forall i | 0 <= i < |totals| ensures takens[i] == ExactShare(totals[i], whole, discount) {
      AssumedTotal(totals, i);
      TakenIsPart(totals, i, totals[i], discount);
    }
    SumOfShares(takens, totals, whole, discount);
    ExactSharesSum(totals, whole, discount);
    if discount <= Sum(totals) {
      WholeShare(Sum(totals), discount);
    } else {
      FullShare(Sum(totals), discount);
    }
  }

  lemma QuotientGrows(a: real, b: real, rest: real, f: real, g: real)
    requires 0.0 <= a <= b && rest > 0.0 && f * (rest + a) == a && g * (rest + b) == b
    ensures 0.0 <= f <= g < 1.0 && (f == g <==> a == b)
  {
    Distributes(1.0, f, rest + a);
    Distributes(1.0, g, rest + b);
    ProductSign(1.0 - f, rest + a);
    ProductSign(1.0 - g, rest + b);
    ProductSign(f, rest + a);
    assert (g - f) * (rest + b) == (1.0 - f) * (b - a);
    ProductSign(1.0 - f, b - a);
    ProductSign(g - f, rest + b);
  }

  /** The share of a line in a total that contains it grows with the line. */
  lemma ShareGrows(a: real, b: real, rest: real, discount: real)
    requires 0.0 <= a <= b && rest > 0.0 && discount > 0.0
    ensures ExactShare(a, rest + a, discount) <= ExactShare(b, rest + b, discount)
    ensures ExactShare(a, rest + a, discount) == ExactShare(b, rest + b, discount) <==> a == b
  {
    var f, g := a / (rest + a), b / (rest + b);
    QuotientGrows(a, b, rest, f, g);
    ProductSign(g - f, discount);
    Distributes(g, f, discount);
  }

  /** A line with a higher price loses more. */
  lemma TakenGrows(a: real, b: real, rest: real, discount: real)
    requires 0.0 <= a <= b && rest > 0.0 && discount > 0.0
    ensures TakenPart(a, rest, discount) <= TakenPart(b, rest, discount)
    ensures TakenPart(a, rest, discount) == TakenPart(b, rest, discount) <==> a == b
  {
    if discount <= rest + a {
      ShareGrows(a, b, rest, discount);
    } else {
      FullShare(a, discount);
      if rest + b <= discount {
        FullShare(b, discount);
      } else {
        var edge := discount - rest;
        ShareGrows(edge, b, rest, discount);
        FullShare(edge, discount);
      }
    }
  }

  lemma KeptGrowsUnlimited(a: real, b: real, rest: real, discount: real)
    requires 0.0 <= a < b && rest > 0.0 && 0.0 <= discount < rest + a
    ensures a - ExactShare(a, rest + a, discount) < b - ExactShare(b, rest + b, discount)
  {
    var f, g := a / (rest + a), b / (rest + b);
    QuotientGrows(a, b, rest, f, g);
    KeptDifference(a, b, rest, f, g, discount);
  }

  /** What is left of a line with a higher price is more, unless both are limited. */
  lemma KeptGrows(a: real, b: real, rest: real, discount: real)
    requires 0.0 <= a <= b && rest > 0.0 && discount >= 0.0
    ensures a - TakenPart(a, rest, discount) <= b - TakenPart(b, rest, discount)
    ensures a - TakenPart(a, rest, discount) == b - TakenPart(b, rest, discount) <==> a == b || rest + b <= discount
  {
    if rest + b <= discount {
      FullShare(a, discount);
      FullShare(b, discount);
    } else if rest + a <= discount {
      FullShare(a, discount);
      ShareIsBelow(b, rest + b, b / (rest + b), discount);
    } else if a < b {
      KeptGrowsUnlimited(a, b, rest, discount);
    }
  }

  lemma ShareIsBelow(part: real, whole: real, f: real, amount: real)
    requires f * whole == part && part >= 0.0 && 0.0 <= amount < whole
    ensures f * amount <= part && (part > 0.0 ==> f * amount < part)
  {
    ShareAgainstPart(f, part, whole, amount);
    Distributes(whole, amount, f);
    ProductSign(f, whole);
    ProductSign(whole - amount, f);
  }

  lemma KeptDifference(a: real, b: real, rest: real, f: real, g: real, discount: real)
    requires 0.0 <= a < b && rest > 0.0 && 0.0 <= discount < rest + a
    requires f * (rest + a) == a && g * (rest + b) == b && 0.0 <= f <= g < 1.0
    ensures a - f * discount < b - g * discount
  {
    // b - a is what g and f take of rest + b and rest + a, of which the discount is a smaller part
    var x, y := rest + a, rest + b;
    Distributes(x, discount, f);
    Distributes(y, discount, g);
    Distributes(x, discount, g);
    ProductSign(x - discount, g - f);
    Distributes(g, f, x - discount);
    ProductSign(g, y);
    ProductSign(y - x, g);
    Distributes(y, x, g);
  }

  lemma LineLosesMore(totals: seq<real>, i: nat, a: real, b: real, discount: real)
    requires i < |totals| && 0.0 <= a <= b && Sum(Others(totals, i)) > 0.0 && discount > 0.0
    ensures Taken(totals, i, a, discount, ExactShare) <= Taken(totals, i, b, discount, ExactShare)
    ensures Taken(totals, i, a, discount, ExactShare) == Taken(totals, i, b, discount, ExactShare) <==> a == b
  {
    TakenIsPart(totals, i, a, discount);
    TakenIsPart(totals, i, b, discount);
    TakenGrows(a, b, Sum(Others(totals, i)), discount);
  }

  lemma TakensGrow(totals: seq<real>, a: seq<real>, b: seq<real>, discount: real)
    requires |totals| == |a| == |b| && OthersAreWorth(totals) && NoneNegative(a) && AtMost(a, b) && discount > 0.0
    ensures
      var less, more := Sum(Takens(totals, a, discount, ExactShare)), Sum(Takens(totals, b, discount, ExactShare));
      less <= more && (less == more <==> a == b)
  {
    var less, more := Takens(totals, a, discount, ExactShare), Takens(totals, b, discount, ExactShare);
    forall i | 0 <= i < |totals| ensures less[i] <= more[i] && (less[i] == more[i] <==> a[i] == b[i]) {
      LineLosesMore(totals, i, a[i], b[i], discount);
    }
    SumGrows(less, more);
    SamePlaces(less, more, a, b);
  }

  lemma SamePlaces(x: seq<real>, y: seq<real>, a: seq<real>, b: seq<real>)
    requires |x| == |y| == |a| == |b| && forall i :: 0 <= i < |x| ==> (x[i] == y[i] <==> a[i] == b[i])
    ensures x == y <==> a == b
  {
    if x == y {
      forall i | 0 <= i < |a| ensures a[i] == b[i] {
        assert x[i] == y[i];
      }
    } else {
      var i :| 0 <= i < |x| && x[i] != y[i];
      assert a[i] != b[i];
    }
  }

  lemma OthersInSum(totals: seq<real>)
    requires NoneNegative(totals) && |totals| > 0 && OthersAreWorth(totals)
    ensures Sum(totals) > 0.0
  {
    SumOthers(totals, 0);
  }

  /**
   * When no line passes on more than its total, the lines lose at most the discount or all there is; when none passes
   * on less, they lose at least that; in either case they lose exactly that when every line, also the last one, passes
   * on its total, and only then.
   */
  lemma DiscountsAddUp(totals: seq<real>, owns: seq<real>, discount: real)
    requires 2 <= |totals| == |owns|
    requires NoneNegative(totals) && OthersAreWorth(totals) && NoneNegative(owns) && discount > 0.0
    ensures
      var taken := TakenFrom(ENTIRE_ORDER, totals, owns, discount, ExactShare);
      var target := Min(discount, Sum(totals));
      && taken.Some?
      && (AtMost(owns, totals) ==> taken.value <= target)
      && (AtMost(totals, owns) ==> taken.value >= target)
      && (AtMost(owns, totals) || AtMost(totals, owns) ==> (taken.value == target <==> owns == totals))
  {
    WorthOthersDoNotRaise(totals, owns);
    TakenFromAll(totals, owns, discount, ExactShare);
    OthersInSum(totals);
    TakenOfTotals(totals, discount);
    if AtMost(owns, totals) {
      TakensGrow(totals, owns, totals, discount);
    }
    if AtMost(totals, owns) {
      TakensGrow(totals, totals, owns, discount);
    }
  }

  /** The part of the discount that a line loses. */
  function Part(totals: seq<real>, i: nat, own: real, discount: real): real
    requires i < |totals|
  {
    ExactShare(own, Max(discount, Assumed(totals, i, own)), 1.0)
  }

  function Parts(totals: seq<real>, owns: seq<real>, discount: real): (r: seq<real>)
    requires |totals| == |owns|
    ensures |r| == |totals|
    ensures forall i :: 0 <= i < |r| ==> r[i] == Part(totals, i, owns[i], discount)
  {
    seq(|totals|, i requires 0 <= i < |totals| => Part(totals, i, owns[i], discount))
  }

  lemma ExactShareScales(part: real, whole: real, discount: real)
    ensures ExactShare(part, whole, discount) == ExactShare(part, whole, 1.0) * discount
  {
  }

  lemma TakenIsPartOfDiscount(totals: seq<real>, i: nat, own: real, discount: real)
    requires i < |totals| && own >= 0.0 && Assumed(totals, i, own) > 0.0 && discount >= 0.0
    ensures IsTimes(Taken(totals, i, own, discount, ExactShare), Part(totals, i, own, discount), discount)
  {
    TakenIsPart(totals, i, own, discount);
    ExactShareScales(own, Max(discount, Assumed(totals, i, own)), discount);
  }

  lemma WorthOthersDoNotRaise(totals: seq<real>, owns: seq<real>)
    requires |totals| == |owns| && OthersAreWorth(totals) && NoneNegative(owns)
    ensures NoneRaises(totals, owns)
  {
  }

  lemma WorthDoesNotRaise(totals: seq<real>, owns: seq<real>)
    requires |totals| == |owns| && AssumesWorth(totals, owns)
    ensures NoneRaises(totals, owns)
  {
  }

  lemma TakensScale(totals: seq<real>, owns: seq<real>, discount: real)
    requires |totals| == |owns| && NoneNegative(owns) && AssumesWorth(totals, owns) && discount >= 0.0
    ensures IsTimes(Sum(Takens(totals, owns, discount, ExactShare)), Sum(Parts(totals, owns, discount)), discount)
  {
    var takens, parts := Takens(totals, owns, discount, ExactShare), Parts(totals, owns, discount);
    forall i | 0 <= i < |totals| ensures IsTimes(takens[i], parts[i], discount) {
      TakenIsPartOfDiscount(totals, i, owns[i], discount);
    }
    SumScales(takens, parts, discount);
  }

  lemma PartsDecide(taken: real, parts: real, discount: real)
    requires IsTimes(taken, parts, discount) && discount >= 0.0
    ensures taken == parts * discount
    ensures discount > 0.0 ==> (taken == discount <==> parts == 1.0)
  {
    if discount > 0.0 && taken == discount {
      Cancels(parts, 1.0, discount);
    }
  }

  /**
   * However the unit prices are rounded, the lines lose the discount times the sum of their parts, each the part of its
   * price in the larger of the discount and the total that the line assumes. So they lose exactly the discount when
   * those parts make up one, and only then.
   */
  lemma DiscountsFollowParts(totals: seq<real>, owns: seq<real>, discount: real)
    requires 2 <= |totals| == |owns|
    requires NoneNegative(owns) && AssumesWorth(totals, owns) && discount >= 0.0
    ensures
      var taken := TakenFrom(ENTIRE_ORDER, totals, owns, discount, ExactShare);
      var parts := Sum(Parts(totals, owns, discount));
      && taken.Some? && taken.value == parts * discount
      && (discount > 0.0 ==> (taken.value == discount <==> parts == 1.0))
  {
    WorthDoesNotRaise(totals, owns);
    TakenFromAll(totals, owns, discount, ExactShare);
    TakensScale(totals, owns, discount);
    PartsDecide(Sum(Takens(totals, owns, discount, ExactShare)), Sum(Parts(totals, owns, discount)), discount);
  }

  lemma TwoOthers(t: real, u: real)
    ensures Sum(Others([t, u], 0)) == u && Sum(Others([t, u], 1)) == t
  {
    assert Others([t, u], 0) == [u] && Others([t, u], 1) == [t];
    assert [u][..0] == [] && [t][..0] == [];
  }

  lemma TwoParts(a: real, b: real, m: real, n: real, f: real, g: real)
    requires m > 0.0 && n > 0.0 && f * m == a && g * n == b
    ensures f + g == 1.0 <==> a * b == (m - a) * (n - b)
  {
    var gap, scale := f + g - 1.0, m * n;
    ProductSign(m, n);
    calc {
      gap * scale;
      (f * m) * n + (g * n) * m - m * n;
      a * n + b * m - m * n;
      a * b - (m - a) * (n - b);
    }
    ProductSign(gap, scale);
    ProductSign(-gap, scale);
  }

  /**
   * Two lines, rounded in any direction, lose exactly the discount when the product of their prices is that of what
   * they see beside them: the other's total, or more of the discount than their own price.
   */
  lemma TwoLinesAddUp(t: real, u: real, a: real, b: real, discount: real)
    requires a >= 0.0 && b >= 0.0 && u + a > 0.0 && t + b > 0.0 && discount > 0.0
    ensures TakenFrom(ENTIRE_ORDER, [t, u], [a, b], discount, ExactShare) == Some(discount)
      <==> a * b == Max(u, discount - a) * Max(t, discount - b)
    ensures discount <= u + a && discount <= t + b ==>
      (TakenFrom(ENTIRE_ORDER, [t, u], [a, b], discount, ExactShare) == Some(discount) <==> a * b == t * u)
  {
    TwoTaken(t, u, a, b, discount);
    TwoQuotients(t, u, a, b, discount);
    if discount <= u + a && discount <= t + b {
      assert Max(u, discount - a) == u && Max(t, discount - b) == t;
    }
  }

  lemma TwoTaken(t: real, u: real, a: real, b: real, discount: real)
    requires a >= 0.0 && b >= 0.0 && u + a > 0.0 && t + b > 0.0 && discount > 0.0
    ensures TakenFrom(ENTIRE_ORDER, [t, u], [a, b], discount, ExactShare) == Some(discount)
      <==> a / Max(discount, u + a) + b / Max(discount, t + b) == 1.0
  {
    TwoAreWorth(t, u, a, b);
    DiscountsFollowParts([t, u], [a, b], discount);
    TwoPartsOf(t, u, a, b, discount);
  }

  lemma TwoQuotients(t: real, u: real, a: real, b: real, discount: real)
    requires discount > 0.0
    ensures a / Max(discount, u + a) + b / Max(discount, t + b) == 1.0
      <==> a * b == Max(u, discount - a) * Max(t, discount - b)
  {
    var m, n := Max(discount, u + a), Max(discount, t + b);
    TwoParts(a, b, m, n, a / m, b / n);
    assert m - a == Max(u, discount - a) && n - b == Max(t, discount - b);
  }

  lemma TwoAreWorth(t: real, u: real, a: real, b: real)
    requires a >= 0.0 && b >= 0.0 && u + a > 0.0 && t + b > 0.0
    ensures NoneNegative([a, b]) && AssumesWorth([t, u], [a, b])
  {
    TwoOthers(t, u);
  }

  lemma TwoPartsOf(t: real, u: real, a: real, b: real, discount: real)
    requires a >= 0.0 && b >= 0.0 && discount > 0.0
    ensures Sum(Parts([t, u], [a, b], discount)) == a / Max(discount, u + a) + b / Max(discount, t + b)
  {
    TwoOthers(t, u);
    var parts := Parts([t, u], [a, b], discount);
    assert parts == [parts[0], parts[1]];
    SumOfTwo(parts[0], parts[1]);
  }

  // --- Against the subtotal without lines ---

  lemma {:induction false} UndiscountedLines(v: Option<CheckoutVoucher>, totals: seq<real>, owns: seq<real>,
                                             discount: real, share: Share, n: nat)
    requires LeavesLines(v) && n <= |totals| == |owns|
    ensures DiscountedLines(v, totals, owns, discount, share, n) == Some(owns[..n])
  {
    if n > 0 {
      UndiscountedLines(v, totals, owns, discount, share, n - 1);
      assert owns[..n] == owns[..n - 1] + [owns[n - 1]];
    }
  }

  /** A division raises exactly when several lines are worth nothing together. */
  predicate Raises(v: Option<CheckoutVoucher>, totals: seq<real>) {
    v == ENTIRE_ORDER && |totals| >= 2 && Sum(totals) == 0.0
  }

  lemma SomeLineRaises(v: Option<CheckoutVoucher>, totals: seq<real>, discount: real, n: nat)
    requires Raises(v, totals) && 1 <= n <= |totals|
    ensures DiscountedLines(v, totals, totals, discount, ExactShare, n).None?
  {
    AssumedTotal(totals, n - 1);
  }

  /** A single line loses the whole discount, up to its price. */
  lemma OneLine(totals: seq<real>, owns: seq<real>, discount: real, share: Share)
    requires |totals| == |owns| == 1
    ensures DiscountedLines(ENTIRE_ORDER, totals, owns, discount, share, |totals|)
         == Some([Max(owns[0] - discount, 0.0)])
  {
    var n := |totals| - 1;
    assert DiscountedLine(ENTIRE_ORDER, totals, n, owns[n], discount, share) == Some(Max(owns[0] - discount, 0.0));
    var none: seq<real> := [];
    assert DiscountedLines(ENTIRE_ORDER, totals, owns, discount, share, n) == Some(none);
    assert none + [Max(owns[0] - discount, 0.0)] == [Max(owns[0] - discount, 0.0)];
  }

  lemma SumOfOne(x: real)
    ensures Sum([x]) == x
  {
    assert [x][..0] == [];
  }

  lemma SeveralLines(totals: seq<real>, discount: real)
    requires 2 <= |totals| && NoneNegative(totals) && Sum(totals) > 0.0 && discount >= 0.0
    ensures
      var r := DiscountedLines(ENTIRE_ORDER, totals, totals, discount, ExactShare, |totals|);
      r.Some? && Sum(r.value) == SimpleSubtotal(ENTIRE_ORDER, totals, discount)
  {
    forall i | 0 <= i < |totals| ensures Assumed(totals, i, totals[i]) != 0.0 {
      AssumedTotal(totals, i);
    }
    TakenFromAll(totals, totals, discount, ExactShare);
    TakenOfTotals(totals, discount);
  }

  /** Without a voucher, and with one that the line totals or the shipping price have in them already, no division
      raises, every line keeps its own price, and nothing is taken from the subtotal. */
  lemma UnsplitPrices(v: Option<CheckoutVoucher>, totals: seq<real>, owns: seq<real>, discount: real, share: Share)
    requires LeavesLines(v) && |totals| == |owns|
    ensures DiscountedLines(v, totals, owns, discount, share, |totals|) == Some(owns)
    ensures SimpleSubtotal(v, totals, discount) == Sum(totals)
  {
    UndiscountedLines(v, totals, owns, discount, share, |totals|);
    assert owns[..|totals|] == owns;
  }

  /** The split lines add up to what the simple form leaves. */
  predicate SplitAgrees(v: Option<CheckoutVoucher>, totals: seq<real>, discount: real) {
    var r := DiscountedLines(v, totals, totals, discount, ExactShare, |totals|);
    && (r.None? <==> Raises(v, totals))
    && (r.Some? ==> Sum(r.value) == SimpleSubtotal(v, totals, discount))
  }

  lemma FewLinesAgree(totals: seq<real>, discount: real)
    requires |totals| <= 1 && discount >= 0.0
    ensures SplitAgrees(ENTIRE_ORDER, totals, discount)
  {
    if |totals| == 1 {
      OneLine(totals, totals, discount, ExactShare);
      SumOfOne(totals[0]);
      SumOfOne(Max(totals[0] - discount, 0.0));
      assert totals == [totals[0]];
    }
  }

  lemma SeveralLinesAgree(totals: seq<real>, discount: real)
    requires |totals| >= 2 && NoneNegative(totals) && discount >= 0.0
    ensures SplitAgrees(ENTIRE_ORDER, totals, discount)
  {
    SumNonNegative(totals);
    if Sum(totals) == 0.0 {
      SomeLineRaises(ENTIRE_ORDER, totals, discount, |totals|);
    } else {
      SeveralLines(totals, discount);
    }
  }

  /** With unit prices that need no rounding. */
  lemma SplitRefinesSimple(v: Option<CheckoutVoucher>, totals: seq<real>, discount: real)
    requires NoneNegative(totals) && discount >= 0.0
    ensures SplitAgrees(v, totals, discount)
    ensures SimpleSubtotal(v, totals, discount)
         == if v == ENTIRE_ORDER then Max(0.0, Sum(totals) - discount) else Sum(totals)
  {
    if LeavesLines(v) {
      UnsplitPrices(v, totals, totals, discount, ExactShare);
    } else if |totals| <= 1 {
      FewLinesAgree(totals, discount);
    } else {
      SeveralLinesAgree(totals, discount);
    }
  }

  /** A line passes on the same in both, or is limited in both. */
  predicate SameOrLimited(totals: seq<real>, a: seq<real>, b: seq<real>, discount: real)
    requires |totals| == |a| == |b|
  {
    forall i :: 0 <= i < |totals| ==> a[i] == b[i] || Assumed(totals, i, b[i]) <= discount
  }

  lemma LineKeepsMore(totals: seq<real>, i: nat, a: real, b: real, discount: real)
    requires i < |totals| && 0.0 <= a <= b && Sum(Others(totals, i)) > 0.0 && discount >= 0.0
    ensures
      var less, more := a - Taken(totals, i, a, discount, ExactShare), b - Taken(totals, i, b, discount, ExactShare);
      less <= more && (less == more <==> a == b || Assumed(totals, i, b) <= discount)
  {
    TakenIsPart(totals, i, a, discount);
    TakenIsPart(totals, i, b, discount);
    KeptGrows(a, b, Sum(Others(totals, i)), discount);
  }

  lemma LinesKeepMore(totals: seq<real>, a: seq<real>, b: seq<real>, discount: real)
    requires 2 <= |totals| == |a| == |b| && OthersAreWorth(totals)
    requires NoneNegative(a) && AtMost(a, b) && discount >= 0.0
    ensures
      var less := DiscountedLines(ENTIRE_ORDER, totals, a, discount, ExactShare, |totals|);
      var more := DiscountedLines(ENTIRE_ORDER, totals, b, discount, ExactShare, |totals|);
      && less.Some? && more.Some? && Sum(less.value) <= Sum(more.value)
      && (Sum(less.value) == Sum(more.value) <==> SameOrLimited(totals, a, b, discount))
  {
    WorthOthersDoNotRaise(totals, a);
    WorthOthersDoNotRaise(totals, b);
    AllLessTaken(totals, a, discount, ExactShare);
    AllLessTaken(totals, b, discount, ExactShare);
    var less := DiscountedLines(ENTIRE_ORDER, totals, a, discount, ExactShare, |totals|).value;
    var more := DiscountedLines(ENTIRE_ORDER, totals, b, discount, ExactShare, |totals|).value;
    forall i | 0 <= i < |totals|
      ensures less[i] <= more[i] && (less[i] == more[i] <==> a[i] == b[i] || Assumed(totals, i, b[i]) <= discount)
    {
      LineKeepsMore(totals, i, a[i], b[i], discount);
    }
    SumGrows(less, more);
    SameWhereLimited(totals, a, b, less, more, discount);
  }

  lemma SameWhereLimited(totals: seq<real>, a: seq<real>, b: seq<real>, less: seq<real>, more: seq<real>,
                         discount: real)
    requires |totals| == |a| == |b| == |less| == |more|
    requires forall i :: 0 <= i < |totals| ==>
      (less[i] == more[i] <==> a[i] == b[i] || Assumed(totals, i, b[i]) <= discount)
    ensures less == more <==> SameOrLimited(totals, a, b, discount)
  {
    if less != more {
      var i :| 0 <= i < |totals| && less[i] != more[i];
      assert !(a[i] == b[i] || Assumed(totals, i, b[i]) <= discount);
    }
  }

  lemma SameOrLimitedTotals(totals: seq<real>, owns: seq<real>, discount: real)
    requires |totals| == |owns| && NoneNegative(totals)
    ensures SameOrLimited(totals, owns, totals, discount) <==> owns == totals || Sum(totals) <= discount
  {
    forall i | 0 <= i < |totals| ensures Assumed(totals, i, totals[i]) == Sum(totals) {
      AssumedTotal(totals, i);
    }
  }

  /**
   * With several lines whose unit prices are rounded in one direction the split lines add up to no more, or to no less,
   * than the subtotal without lines. They add up to exactly that when every line passes on its total, or all lines
   * that do not are limited to their prices, and only then.
   */
  lemma SplitAgainstSimple(totals: seq<real>, owns: seq<real>, discount: real)
    requires 2 <= |totals| == |owns|
    requires NoneNegative(totals) && OthersAreWorth(totals) && NoneNegative(owns) && discount >= 0.0
    ensures
      var r := DiscountedLines(ENTIRE_ORDER, totals, owns, discount, ExactShare, |totals|);
      var simple := SimpleSubtotal(ENTIRE_ORDER, totals, discount);
      && r.Some?
      && (AtMost(owns, totals) ==>
            && Sum(r.value) <= simple
            && (Sum(r.value) == simple <==> owns == totals || Sum(totals) <= discount))
      && (AtMost(totals, owns) ==>
            && Sum(r.value) >= simple
            && (Sum(r.value) == simple <==> SameOrLimited(totals, totals, owns, discount)))
  {
    OthersInSum(totals);
    SeveralLines(totals, discount);
    WorthOthersDoNotRaise(totals, owns);
    AllLessTaken(totals, owns, discount, ExactShare);
    if AtMost(owns, totals) {
      LinesKeepMore(totals, owns, totals, discount);
      SameOrLimitedTotals(totals, owns, discount);
    }
    if AtMost(totals, owns) {
      LinesKeepMore(totals, totals, owns, discount);
    }
  }

  /** At most half a unit apart for each of `n` lines. */
  predicate Near(x: real, y: real, n: nat, unit: real) {
    -(n as real) * (unit / 2.0) <= x - y <= n as real * (unit / 2.0)
  }

  lemma NearStep(x: real, y: real, n: nat, unit: real, p: real, q: real)
    requires Near(x, y, n, unit) && -unit / 2.0 <= p - q <= unit / 2.0
    ensures Near(x + p, y + q, n + 1, unit)
  {
    assert (n + 1) as real * (unit / 2.0) == n as real * (unit / 2.0) + unit / 2.0;
  }

  lemma {:induction false} RoundingAddsUp(prices: seq<real>, round: real -> real, unit: real)
    requires IsRounding(round, unit)
    ensures Near(Sum(Rounded(prices, round)), Sum(prices), |prices|, unit)
  {
    if prices != [] {
      var n := |prices| - 1;
      RoundingAddsUp(prices[..n], round, unit);
      assert Rounded(prices, round)[..n] == Rounded(prices[..n], round);
      NearStep(Sum(Rounded(prices[..n], round)), Sum(prices[..n]), n, unit, round(prices[n]), prices[n]);
    }
  }

  /** The unit price of the line needs no rounding. */
  predicate ExactUnit(line: Line, a: Arithmetic)
    requires line.quantity >= 1
  {
    LineUnit(line, a) * line.quantity as real == LineTotal(line, a)
  }

  lemma {:induction false} RoundedSplitIsNear(v: Option<CheckoutVoucher>, totals: seq<real>, discount: real,
                                              round: real -> real, unit: real)
    requires IsRounding(round, unit) && NoneNegative(totals) && discount >= 0.0
    ensures
      var r := DiscountedLines(v, totals, totals, discount, ExactShare, |totals|);
      && (r.None? <==> Raises(v, totals))
      && (r.Some? ==> Near(Sum(Rounded(r.value, round)), SimpleSubtotal(v, totals, discount), |totals|, unit))
  {
    SplitRefinesSimple(v, totals, discount);
    var r := DiscountedLines(v, totals, totals, discount, ExactShare, |totals|);
    if r.Some? {
      RoundingAddsUp(r.value, round, unit);
    }
  }

  /** With unit prices that need no rounding the rounded lines add up to the simple subtotal, nearly. */
  lemma {:induction false} SubtotalIsNear(v: Option<CheckoutVoucher>, lines: Lines, discount: real, a: Arithmetic,
                                          unit: real)
    requires IsRounding(a.round, unit) && discount >= 0.0 && a.share == ExactShare
    requires forall i :: 0 <= i < |lines| ==> lines[i] in lines && ExactUnit(lines[i], a)
    requires NoneNegative(Totals(lines, a))
    ensures
      var totals := Totals(lines, a);
      var r := DiscountedLines(v, totals, Owns(lines, a), discount, a.share, |lines|);
      && (r.None? <==> Raises(v, totals))
      && (r.Some? ==> Near(Sum(Rounded(r.value, a.round)), SimpleSubtotal(v, totals, discount), |lines|, unit))
  {
    ExactOwns(lines, a);
    RoundedSplitIsNear(v, Totals(lines, a), discount, a.round, unit);
  }

  lemma ExactOwns(lines: Lines, a: Arithmetic)
    requires forall i :: 0 <= i < |lines| ==> lines[i] in lines && ExactUnit(lines[i], a)
    ensures Owns(lines, a) == Totals(lines, a)
  {
    forall i | 0 <= i < |lines| ensures Owns(lines, a)[i] == Totals(lines, a)[i] {
      assert ExactUnit(lines[i], a);
    }
  }

  /** `recalculate_checkout_discount`: the stored discount does not exceed the subtotal. */
  function StoredDiscount(v: CheckoutVoucher, discount: real, subtotal: real): real {
    if v.kind == Shipping then discount else Min(discount, subtotal)
  }

  /** With the stored discount the simple subtotal is the base subtotal less exactly that discount. */
  lemma StoredDiscountIsTaken(v: CheckoutVoucher, totals: seq<real>, discount: real)
    requires Some(v) == ENTIRE_ORDER && NoneNegative(totals) && discount >= 0.0
    ensures
      var stored := StoredDiscount(v, discount, Sum(totals));
      && 0.0 <= stored
      && SimpleSubtotal(Some(v), totals, stored) == Sum(totals) - stored
  {
    SumNonNegative(totals);
  }
}
