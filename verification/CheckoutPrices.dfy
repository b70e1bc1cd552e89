/** The prices that `_get_checkout_base_prices` stores on a checkout and its lines. */
module CheckoutPrices {

  import opened Wrappers
  import opened Prices
  import opened CheckoutDiscounts

  // --- The price of a line ---

  /** `calculate_base_line_total_price`. */
  method CalculateBaseLineTotalPrice(line: Line, a: Arithmetic) returns (total: real)
    requires line.quantity >= 1
    ensures total == LineTotal(line, a)
  {
    total := line.price * line.quantity as real;
    ghost var undiscounted := total;
    var i := 0;
    while i < |line.discounts|
      invariant 0 <= i <= |line.discounts|
      invariant total == undiscounted - Sum(line.discounts[..i])
    {
      assert line.discounts[..i + 1][..i] == line.discounts[..i];
      total := total - line.discounts[i];
      i := i + 1;
    }
    assert line.discounts[..i] == line.discounts;
    assert total == AfterPromotions(line);
    if line.voucher.Some? {
      total := AfterVoucher(total, line.quantity, line.voucher.value, a);
    }
    total := a.round(total);
  }

  /** What a voucher takes from a price: a fixed one its value or the whole price, a percentage what it does not
      leave. */
  function Takes(v: LineVoucher, price: real, a: Arithmetic): real {
    match v.valueType
    case Fixed => if v.value < price then v.value else price
    case Percentage => price - a.percentage(price, v.value)
  }

  /** And from the total of a line: from one piece, from the total, or a fixed value from every piece. */
  function VoucherTakes(total: real, quantity: nat, v: LineVoucher, a: Arithmetic): real
    requires quantity >= 1
  {
    var unit := a.divide(total, quantity);
    if v.once then Takes(v, unit, a)
    else if v.valueType.Percentage? then Takes(v, total, a)
    else Takes(v, unit, a) * quantity as real
  }

  lemma DiscountAmountBounds(v: LineVoucher, price: real, a: Arithmetic)
    requires price >= 0.0 && Sensible(v.value, v.valueType) && IsPercentageDiscount(a.percentage)
    ensures 0.0 <= DiscountAmount(v, price, a) <= price
    ensures DiscountAmount(v, price, a) == Takes(v, price, a)
  {
  }

  lemma UnitTimesQuantity(total: real, quantity: nat, unit: real)
    requires quantity >= 1 && unit * quantity as real == total
    ensures unit * (quantity - 1) as real == total - unit
    ensures total >= 0.0 ==> 0.0 <= unit <= total
  {
    assert unit * (quantity - 1) as real == unit * quantity as real - unit;
    if total >= 0.0 {
      NonNegativeQuotient(unit, quantity as real);
      assert unit * (quantity - 1) as real >= 0.0;
    }
  }

  lemma NonNegativeQuotient(x: real, q: real)
    requires q > 0.0 && x * q >= 0.0
    ensures x >= 0.0
  {
  }

  lemma ProductBounds(amount: real, unit: real, quantity: nat)
    requires 0.0 <= amount <= unit
    ensures 0.0 <= amount * quantity as real <= unit * quantity as real
  {
    assert (unit - amount) * quantity as real >= 0.0;
  }

  lemma OnceStaysWithinTotal(total: real, quantity: nat, v: LineVoucher, a: Arithmetic)
    requires quantity >= 1 && total >= 0.0 && v.once
    requires Sensible(v.value, v.valueType) && IsPercentageDiscount(a.percentage) && IsExactDivision(a.divide)
    ensures AfterVoucher(total, quantity, v, a) == total - VoucherTakes(total, quantity, v, a)
    ensures 0.0 <= VoucherTakes(total, quantity, v, a) <= total
  {
    var unit := a.divide(total, quantity);
    UnitTimesQuantity(total, quantity, unit);
    DiscountAmountBounds(v, unit, a);
  }

  lemma FixedStaysWithinTotal(total: real, quantity: nat, v: LineVoucher, a: Arithmetic)
    requires quantity >= 1 && total >= 0.0 && !v.once && v.valueType.Fixed?
    requires Sensible(v.value, v.valueType) && IsPercentageDiscount(a.percentage) && IsExactDivision(a.divide)
    ensures AfterVoucher(total, quantity, v, a) == total - VoucherTakes(total, quantity, v, a)
    ensures 0.0 <= VoucherTakes(total, quantity, v, a) <= total
  {
    var unit := a.divide(total, quantity);
    UnitTimesQuantity(total, quantity, unit);
    DiscountAmountBounds(v, unit, a);
    ProductBounds(DiscountAmount(v, unit, a), unit, quantity);
  }

  /** A voucher takes between nothing and the whole total, so that the maximum with zero changes nothing. */
  lemma VoucherStaysWithinTotal(total: real, quantity: nat, v: LineVoucher, a: Arithmetic)
    requires quantity >= 1 && total >= 0.0
    requires Sensible(v.value, v.valueType) && IsPercentageDiscount(a.percentage) && IsExactDivision(a.divide)
    ensures AfterVoucher(total, quantity, v, a) == total - VoucherTakes(total, quantity, v, a)
    ensures 0.0 <= VoucherTakes(total, quantity, v, a) <= total
  {
    if v.once {
      OnceStaysWithinTotal(total, quantity, v, a);
    } else if v.valueType.Percentage? {
      DiscountAmountBounds(v, total, a);
    } else {
      FixedStaysWithinTotal(total, quantity, v, a);
    }
  }

  /** The prices of the pieces of a line, less the promotions. */
  function Promoted(line: Line): real {
    Sum(Pieces(line.price, line.quantity)) - Sum(line.discounts)
  }

  lemma PromotedPrice(line: Line)
    ensures AfterPromotions(line) == Promoted(line)
  {
    PiecesSum(line.price, line.quantity);
  }

  lemma VoucherTotal(line: Line, total: real, v: LineVoucher, a: Arithmetic)
    requires line.quantity >= 1 && line.voucher == Some(v) && total == AfterPromotions(line)
    ensures LineTotal(line, a) == a.round(AfterVoucher(total, line.quantity, v, a))
  {
  }

  /** The total of a line is the rounded price of its pieces, less the promotions and what its voucher takes. */
  lemma LineTotalIsLeft(line: Line, a: Arithmetic)
    requires line.quantity >= 1 && IsPercentageDiscount(a.percentage) && IsExactDivision(a.divide)
    requires line.voucher.Some? ==>
               Sensible(line.voucher.value.value, line.voucher.value.valueType) && Promoted(line) >= 0.0
    ensures
      var left := match line.voucher
                  case None => Promoted(line)
                  case Some(v) => Promoted(line) - VoucherTakes(Promoted(line), line.quantity, v, a);
      LineTotal(line, a) == a.round(left)
  {
    PromotedPrice(line);
    if line.voucher.Some? {
      var v := line.voucher.value;
      VoucherTotal(line, Promoted(line), v, a);
      VoucherStaysWithinTotal(Promoted(line), line.quantity, v, a);
    }
  }

  /** The total of a line is not negative when the promotions do not exceed its price. */
  lemma LineTotalNonNegative(line: Line, a: Arithmetic, unit: real)
    requires line.quantity >= 1 && AfterPromotions(line) >= 0.0
    requires line.voucher.Some? ==> Sensible(line.voucher.value.value, line.voucher.value.valueType)
    requires IsPercentageDiscount(a.percentage) && IsExactDivision(a.divide) && IsRounding(a.round, unit)
    ensures 0.0 <= LineTotal(line, a) <= a.round(AfterPromotions(line))
  {
    var total := AfterPromotions(line);
    var after := if line.voucher.Some? then AfterVoucher(total, line.quantity, line.voucher.value, a) else total;
    assert 0.0 <= after <= total by {
      if line.voucher.Some? {
        VoucherStaysWithinTotal(total, line.quantity, line.voucher.value, a);
      }
    }
    assert a.round(0.0) <= a.round(after) <= a.round(total);
  }

  // --- The checkout ---

  class CheckoutLine {
    const terms: Line
    var totalPrice: real

    constructor (terms: Line, totalPrice: real)
      ensures this.terms == terms && this.totalPrice == totalPrice
    {
      this.terms := terms;
      this.totalPrice := totalPrice;
    }
  }

  function TermsOf(lines: seq<CheckoutLine>): (r: seq<Line>)
    ensures |r| == |lines|
    ensures forall i :: 0 <= i < |r| ==> r[i] == lines[i].terms
  {
    seq(|lines|, i requires 0 <= i < |lines| => lines[i].terms)
  }

  function PricesOf(lines: seq<CheckoutLine>): (r: seq<real>)
    reads lines
    ensures |r| == |lines|
    ensures forall i :: 0 <= i < |r| ==> r[i] == lines[i].totalPrice
  {
    seq(|lines|, i requires 0 <= i < |lines| reads lines => lines[i].totalPrice)
  }

  /** `base_checkout_delivery_price`. */
  function DeliveryPrice(v: Option<CheckoutVoucher>, shipping: real, discount: real, a: Arithmetic): real {
    a.round(if v.Some? && v.value.kind == Shipping then Max(0.0, shipping - discount) else shipping)
  }

  /** The stored discount of a shipping voucher is not limited by the subtotal: the shipping price loses all of it. */
  lemma ShippingDiscountIsStored(v: CheckoutVoucher, shipping: real, discount: real, subtotal: real, a: Arithmetic)
    requires v.kind == Shipping
    ensures DeliveryPrice(Some(v), shipping, StoredDiscount(v, discount, subtotal), a)
         == a.round(if discount < shipping then shipping - discount else 0.0)
  {
  }

  /** The line totals and what every line passes on as its own, its unit price times its quantity. */
  method LinePrices(lines: seq<CheckoutLine>, a: Arithmetic) returns (totals: seq<real>, owns: seq<real>)
    requires forall l :: l in TermsOf(lines) ==> l.quantity >= 1
    ensures totals == Totals(TermsOf(lines), a)
    ensures owns == Owns(TermsOf(lines), a)
  {
    totals, owns := [], [];
    ghost var terms := TermsOf(lines);
    var i := 0;
    while i < |lines|
      invariant 0 <= i <= |lines|
      invariant |totals| == |owns| == i
      invariant forall j :: 0 <= j < i ==> totals[j] == Totals(terms, a)[j] && owns[j] == Owns(terms, a)[j]
    {
      var line := lines[i].terms;
      assert terms[i] in terms;
      var total := CalculateBaseLineTotalPrice(line, a);
      totals := totals + [total];
      owns := owns + [LineUnit(line, a) * line.quantity as real];
      i := i + 1;
    }
  }

  /** The rounded prices of the first `n` lines. */
  predicate Priced(v: Option<CheckoutVoucher>, totals: seq<real>, owns: seq<real>, discount: real, a: Arithmetic,
                   n: nat, rounded: seq<real>)
    requires n <= |totals| == |owns|
  {
    var r := DiscountedLines(v, totals, owns, discount, a.share, n);
    r.Some? && rounded == Rounded(r.value, a.round)
  }

  lemma PricedStep(v: Option<CheckoutVoucher>, totals: seq<real>, owns: seq<real>, discount: real, a: Arithmetic,
                   i: nat, rounded: seq<real>, price: real)
    requires i < |totals| == |owns|
    requires Priced(v, totals, owns, discount, a, i, rounded)
    requires DiscountedLine(v, totals, i, owns[i], discount, a.share) == Some(price)
    ensures Priced(v, totals, owns, discount, a, i + 1, rounded + [a.round(price)])
    ensures Sum(rounded + [a.round(price)]) == Sum(rounded) + a.round(price)
  {
    assert (rounded + [a.round(price)])[..i] == rounded;
  }

  /** The first lines are priced, and `subtotal` is their sum. */
  predicate SummedUp(v: Option<CheckoutVoucher>, totals: seq<real>, owns: seq<real>, discount: real, a: Arithmetic,
                     rounded: seq<real>, subtotal: real)
    requires |rounded| <= |totals| == |owns|
  {
    Priced(v, totals, owns, discount, a, |rounded|, rounded) && subtotal == Sum(rounded)
  }

  /** The rounded price of the next line, or nothing when its division raises. */
  method NextPrice(v: Option<CheckoutVoucher>, totals: seq<real>, owns: seq<real>, discount: real, a: Arithmetic,
                   i: nat, ghost rounded: seq<real>, subtotal: real)
    returns (total: Option<real>)
    requires i == |rounded| < |totals| == |owns|
    requires SummedUp(v, totals, owns, discount, a, rounded, subtotal)
    ensures total.None? ==> DiscountedLines(v, totals, owns, discount, a.share, |totals|).None?
    ensures total.Some? ==>
      SummedUp(v, totals, owns, discount, a, rounded + [total.value], subtotal + total.value)
  {
    var price := DiscountedLine(v, totals, i, owns[i], discount, a.share);
    if price.None? {
      SomeRaises(v, totals, owns, discount, a.share, i, |totals|);
      return None;
    }
    PricedStep(v, totals, owns, discount, a, i, rounded, price.value);
    total := Some(a.round(price.value));
  }

  /** The first lines have their prices. */
  predicate HavePrices(lines: seq<CheckoutLine>, prices: seq<real>)
    reads lines
  {
    |prices| <= |lines| && forall j :: 0 <= j < |prices| ==> lines[j].totalPrice == prices[j]
  }

  method StorePrice(lines: seq<CheckoutLine>, i: nat, price: real, ghost prices: seq<real>)
    requires i == |prices| < |lines| && HavePrices(lines, prices)
    requires forall i, j :: 0 <= i < j < |lines| ==> lines[i] != lines[j]
    modifies lines[i]
    ensures HavePrices(lines, prices + [price])
  {
    lines[i].totalPrice := price;
  }

  /** What lines get that are not split: their own prices, rounded, when the voucher leaves them alone, and all that the
      discount leaves when there is one line. */
  predicate PlainPrices(v: Option<CheckoutVoucher>, owns: seq<real>, discount: real, a: Arithmetic, prices: seq<real>,
                        sum: Option<real>)
  {
    && (LeavesLines(v) ==> sum.Some? && prices == Rounded(owns, a.round))
    && (v == ENTIRE_ORDER && |owns| == 1 ==> sum.Some? && prices == [a.round(Max(owns[0] - discount, 0.0))])
    && (sum.Some? ==> sum.value == Sum(prices))
  }

  lemma PricedPlainly(v: Option<CheckoutVoucher>, totals: seq<real>, owns: seq<real>, discount: real, a: Arithmetic,
                      prices: seq<real>, sum: Option<real>)
    requires |totals| == |owns|
    requires sum.None? == DiscountedLines(v, totals, owns, discount, a.share, |totals|).None?
    requires sum.Some? ==> Priced(v, totals, owns, discount, a, |totals|, prices) && sum.value == Sum(prices)
    ensures PlainPrices(v, owns, discount, a, prices, sum)
  {
    if LeavesLines(v) {
      UnsplitPrices(v, totals, owns, discount, a.share);
    }
    if v == ENTIRE_ORDER && |owns| == 1 {
      OneLine(totals, owns, discount, a.share);
    }
  }

  /** The loop of `_get_checkout_base_prices`; a division by a total of zero raises. */
  method StoreLinePrices(v: Option<CheckoutVoucher>, lines: seq<CheckoutLine>, totals: seq<real>, owns: seq<real>,
                         discount: real, a: Arithmetic)
    returns (sum: Option<real>)
    requires |totals| == |owns| == |lines|
    requires forall i, j :: 0 <= i < j < |lines| ==> lines[i] != lines[j]
    modifies lines
    ensures sum.None? == DiscountedLines(v, totals, owns, discount, a.share, |lines|).None?
    ensures sum.Some? ==>
        Priced(v, totals, owns, discount, a, |lines|, PricesOf(lines)) && sum.value == Sum(PricesOf(lines))
    ensures PlainPrices(v, owns, discount, a, PricesOf(lines), sum)
  {
    ghost var rounded: seq<real> := [];
    var subtotal := 0.0;
    var i := 0;
    while i < |lines|
      invariant |rounded| == i <= |lines|
      invariant SummedUp(v, totals, owns, discount, a, rounded, subtotal)
      invariant HavePrices(lines, rounded)
    {
      var total := NextPrice(v, totals, owns, discount, a, i, rounded, subtotal);
      if total.None? {
        PricedPlainly(v, totals, owns, discount, a, PricesOf(lines), None);
        return None;
      }
      StorePrice(lines, i, total.value, rounded);
      rounded := rounded + [total.value];
      subtotal := subtotal + total.value;
      i := i + 1;
    }
    assert PricesOf(lines) == rounded;
    sum := Some(subtotal);
    PricedPlainly(v, totals, owns, discount, a, PricesOf(lines), sum);
  }

  /** The prices that lines with these terms get, and their sum, unless a division raises. */
  predicate LinesPriced(v: Option<CheckoutVoucher>, terms: Lines, discount: real, a: Arithmetic, prices: seq<real>,
                        sum: Option<real>)
  {
    var totals, owns := Totals(terms, a), Owns(terms, a);
    && sum.None? == DiscountedLines(v, totals, owns, discount, a.share, |terms|).None?
    && (sum.Some? ==> Priced(v, totals, owns, discount, a, |terms|, prices) && sum.value == Sum(prices))
  }

  /** The lines of `_get_checkout_base_prices`. */
  method PriceLines(v: Option<CheckoutVoucher>, lines: seq<CheckoutLine>, discount: real, a: Arithmetic)
    returns (sum: Option<real>)
    requires forall l :: l in TermsOf(lines) ==> l.quantity >= 1
    requires forall i, j :: 0 <= i < j < |lines| ==> lines[i] != lines[j]
    modifies lines
    ensures LinesPriced(v, TermsOf(lines), discount, a, PricesOf(lines), sum)
    ensures PlainPrices(v, Owns(TermsOf(lines), a), discount, a, PricesOf(lines), sum)
  {
    var totals, owns := LinePrices(lines, a);
    sum := StoreLinePrices(v, lines, totals, owns, discount, a);
  }

  class Checkout {
    var shippingPrice: real
    var subtotal: real
    var total: real

    /** `_get_checkout_base_prices`. */
    method GetCheckoutBasePrices(v: Option<CheckoutVoucher>, lines: seq<CheckoutLine>, shipping: real, discount: real,
                                 a: Arithmetic)
      returns (raised: bool)
      requires forall l :: l in TermsOf(lines) ==> l.quantity >= 1
      requires forall i, j :: 0 <= i < j < |lines| ==> lines[i] != lines[j]
      modifies this, lines
      ensures LinesPriced(v, TermsOf(lines), discount, a, PricesOf(lines), if raised then None else Some(subtotal))
      ensures PlainPrices(v, Owns(TermsOf(lines), a), discount, a, PricesOf(lines),
                          if raised then None else Some(subtotal))
      ensures raised ==> subtotal == old(subtotal) && total == old(total) && shippingPrice == old(shippingPrice)
      ensures !raised ==>
        && total == a.round(subtotal + shippingPrice)
        && shippingPrice
           == a.round(if v.Some? && v.value.kind == Shipping then Max(0.0, shipping - discount) else shipping)
    {
      var sum := PriceLines(v, lines, discount, a);
      ghost var prices := PricesOf(lines);
      raised := SetPrices(v, TermsOf(lines), prices, sum, shipping, discount, a);
      assert PricesOf(lines) == prices;
    }

    /** The fields of the checkout, unless a division raised. */
    method SetPrices(v: Option<CheckoutVoucher>, ghost terms: Lines, ghost prices: seq<real>, sum: Option<real>,
                     shipping: real, discount: real, a: Arithmetic)
      returns (raised: bool)
      requires LinesPriced(v, terms, discount, a, prices, sum)
      requires PlainPrices(v, Owns(terms, a), discount, a, prices, sum)
      modifies this`shippingPrice, this`subtotal, this`total
      ensures LinesPriced(v, terms, discount, a, prices, if raised then None else Some(subtotal))
      ensures PlainPrices(v, Owns(terms, a), discount, a, prices, if raised then None else Some(subtotal))
      ensures raised ==> subtotal == old(subtotal) && total == old(total) && shippingPrice == old(shippingPrice)
      ensures !raised ==>
        && total == a.round(subtotal + shippingPrice)
        && shippingPrice
           == a.round(if v.Some? && v.value.kind == Shipping then Max(0.0, shipping - discount) else shipping)
    {
      raised := sum.None?;
      if sum.Some? {
        shippingPrice := DeliveryPrice(v, shipping, discount, a);
        subtotal := sum.value;
        total := a.round(subtotal + shippingPrice);
      }
    }
  }

  lemma {:induction false} SomeRaises(v: Option<CheckoutVoucher>, totals: seq<real>, owns: seq<real>, discount: real,
                                      share: Share, i: nat, n: nat)
    requires i < n <= |totals| == |owns|
    requires DiscountedLine(v, totals, i, owns[i], discount, share).None?
    ensures DiscountedLines(v, totals, owns, discount, share, n).None?
  {
    if i < n - 1 {
      SomeRaises(v, totals, owns, discount, share, i, n - 1);
    }
  }

  // --- When a unit price is rounded ---

  lemma RoundThird()
    ensures HalfEven(0.01)(10.0) == 10.0
    ensures HalfEven(0.01)(9.999) == 10.0
    ensures HalfEven(0.01)(ExactDivision(10.0, 3)) == 3.33
    ensures ExactDivision(10.0, 1) == 10.0
  {
    assert 10.0 / 0.01 == 1000.0 && 9.999 / 0.01 == 999.9;
    assert Round(1000.0) == 1000 && Round(999.9) == 1000;
    var third := 10.0 / 3.0;
    assert ExactDivision(10.0, 3) == third;
    assert 333.0 < third / 0.01 < 333.5;
    assert Round(third / 0.01) == 333;
  }

  /** Two decimals, and no other rounding. */
  function Cents(percentage: PercentageDiscount): Arithmetic {
    Exact(percentage, 0.01)
  }

  lemma ThreePieces(percentage: PercentageDiscount)
    ensures
      var line := Line(3.333, 3, [], None);
      && LineTotal(line, Cents(percentage)) == 10.0
      && LineUnit(line, Cents(percentage)) * 3.0 == 9.99
  {
    RoundThird();
    assert AfterPromotions(Line(3.333, 3, [], None)) == 9.999;
  }

  lemma OnePiece(percentage: PercentageDiscount)
    ensures
      var line := Line(10.0, 1, [], None);
      && LineTotal(line, Cents(percentage)) == 10.0
      && LineUnit(line, Cents(percentage)) * 1.0 == 10.0
  {
    RoundThird();
    assert AfterPromotions(Line(10.0, 1, [], None)) == 10.0;
  }

  lemma SplitOfTwoTens()
    ensures
      var taken := TakenFrom(ENTIRE_ORDER, [10.0, 10.0], [9.99, 10.0], 10.0, ExactShare);
      taken.Some? && taken.value < 10.0
  {
    TwoOthers(10.0, 10.0);
    assert Sum([10.0, 10.0]) == 20.0 by { AssumedTotal([10.0, 10.0], 0); }
    DiscountsAddUp([10.0, 10.0], [9.99, 10.0], 10.0);
    assert [10.0, 10.0][0] != [9.99, 10.0][0];
  }

  lemma RoundedPrices(percentage: PercentageDiscount)
    ensures
      var lines: Lines := [Line(3.333, 3, [], None), Line(10.0, 1, [], None)];
      && Totals(lines, Cents(percentage)) == [10.0, 10.0]
      && Owns(lines, Cents(percentage)) == [9.99, 10.0]
  {
    ThreePieces(percentage);
    OnePiece(percentage);
  }

  /**
   * A price of 3.333, which the three decimals of a price override allow, makes three pieces 10.00 and one 3.33, and
   * with that a part of the discount is lost.
   */
  lemma RoundedUnitLosesDiscount(percentage: PercentageDiscount)
    ensures
      var lines: Lines := [Line(3.333, 3, [], None), Line(10.0, 1, [], None)];
      var taken := TakenFrom(ENTIRE_ORDER, [10.0, 10.0], [9.99, 10.0], 10.0, ExactShare);
      && Totals(lines, Cents(percentage)) == [10.0, 10.0]
      && Owns(lines, Cents(percentage)) == [9.99, 10.0]
      && taken.Some? && taken.value < 10.0
  {
    RoundedPrices(percentage);
    SplitOfTwoTens();
  }

  lemma RoundFourth()
    ensures HalfEven(0.01)(9.992) == 9.99
    ensures HalfEven(0.01)(ExactDivision(9.99, 4)) == 2.5
  {
    assert 9.992 / 0.01 == 999.2 && Round(999.2) == 999;
    assert ExactDivision(9.99, 4) == 2.4975 && 2.4975 / 0.01 == 249.75;
    assert Round(249.75) == 250;
  }

  lemma FourPieces(percentage: PercentageDiscount)
    ensures
      var line := Line(2.498, 4, [], None);
      && LineTotal(line, Cents(percentage)) == 9.99
      && LineUnit(line, Cents(percentage)) * 4.0 == 10.0
  {
    RoundFourth();
    assert AfterPromotions(Line(2.498, 4, [], None)) == 9.992;
  }

  lemma LimitedTaken()
    ensures TakenFrom(ENTIRE_ORDER, [10.0, 9.99], [9.99, 10.0], 19.99, ExactShare) == Some(19.985)
  {
    TwoOthers(10.0, 9.99);
    DiscountsFollowParts([10.0, 9.99], [9.99, 10.0], 19.99);
    TwoPartsOf(10.0, 9.99, 9.99, 10.0, 19.99);
    assert (9.99 / 19.99 + 10.0 / 20.0) * 19.99 == 19.985;
  }

  lemma OppositePrices(percentage: PercentageDiscount)
    ensures
      var lines: Lines := [Line(3.333, 3, [], None), Line(2.498, 4, [], None)];
      && Totals(lines, Cents(percentage)) == [10.0, 9.99]
      && Owns(lines, Cents(percentage)) == [9.99, 10.0]
  {
    ThreePieces(percentage);
    FourPieces(percentage);
  }

  /**
   * Two lines whose unit prices are rounded in opposite directions, under a discount of the whole subtotal: the first
   * is limited to its price, and with that a part of the discount is lost, although the product of the prices stays.
   */
  lemma LimitedLineLosesDiscount(percentage: PercentageDiscount)
    ensures
      var lines: Lines := [Line(3.333, 3, [], None), Line(2.498, 4, [], None)];
      && Totals(lines, Cents(percentage)) == [10.0, 9.99]
      && Owns(lines, Cents(percentage)) == [9.99, 10.0]
      && TakenFrom(ENTIRE_ORDER, [10.0, 9.99], [9.99, 10.0], 19.99, ExactShare) == Some(19.985)
  {
    OppositePrices(percentage);
    LimitedTaken();
  }
}
