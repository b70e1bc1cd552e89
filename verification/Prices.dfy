/** Prices as exact reals, their discounts, and rounding to the unit of a currency (saleor/core/prices.py). */
module Prices {

  datatype ValueType = Fixed | Percentage

  /** `percentage_discount` of the `prices` library, as a function of the price and the percentage. */
  type PercentageDiscount = (real, real) -> real

  /** A percentage from 0 to 100 leaves between nothing and the whole of a price. */
  ghost predicate IsPercentageDiscount(f: PercentageDiscount) {
    forall price, value :: price >= 0.0 && 0.0 <= value <= 100.0 ==> 0.0 <= f(price, value) <= price
  }

  function Max(a: real, b: real): real {
    if a < b then b else a
  }

  function Min(a: real, b: real): real {
    if b < a then b else a
  }

  function Sum(prices: seq<real>): real {
    if prices == [] then 0.0 else Sum(prices[..|prices| - 1]) + prices[|prices| - 1]
  }

  lemma {:induction false} SumConcat(a: seq<real>, b: seq<real>)
    ensures Sum(a + b) == Sum(a) + Sum(b)
  {
    if b == [] {
      assert a + b == a;
    } else {
      SumConcat(a, b[..|b| - 1]);
      assert (a + b)[..|a| + |b| - 1] == a + b[..|b| - 1];
    }
  }

  /** The prices of the single pieces. */
  function Pieces(price: real, quantity: nat): (r: seq<real>)
    ensures |r| == quantity
  {
    seq(quantity, i => price)
  }

  lemma {:induction false} PiecesSum(price: real, quantity: nat)
    ensures Sum(Pieces(price, quantity)) == price * quantity as real
  {
    if quantity > 0 {
      PiecesSum(price, quantity - 1);
      assert Pieces(price, quantity)[..quantity - 1] == Pieces(price, quantity - 1);
    }
  }

  /** `fixed_discount` of the `prices` library. */
  function FixedDiscount(price: real, discount: real): real {
    Max(price - discount, 0.0)
  }

  /** `apply_discount_to_value`. */
  function ApplyDiscount(value: real, valueType: ValueType, price: real, percentage: PercentageDiscount): real {
    if valueType.Fixed? then FixedDiscount(price, value) else percentage(price, value)
  }

  /** The part of `amount` that falls to `part` of `whole`: `part / whole * amount`, possibly rounded. */
  type Share = (real, real, real) -> real

  function ExactShare(part: real, whole: real, amount: real): real {
    if whole == 0.0 then 0.0 else part / whole * amount
  }

  /** The shares of a part and of the rest do not exceed them. */
  ghost predicate IsShare(share: Share) {
    forall part, whole, amount :: 0.0 <= part <= whole && whole > 0.0 && 0.0 <= amount <= whole ==>
      0.0 <= share(part, whole, amount) <= part && 0.0 <= amount - share(part, whole, amount) <= whole - part
  }

  lemma ProductSign(x: real, y: real)
    ensures x <= 0.0 && y >= 0.0 ==> x * y <= 0.0
    ensures x >= 0.0 && y >= 0.0 ==> x * y >= 0.0
    ensures x > 0.0 && y > 0.0 ==> x * y > 0.0
    ensures x < 0.0 && y > 0.0 ==> x * y < 0.0
  {
  }

  lemma Distributes(x: real, y: real, z: real)
    ensures (x + y) * z == x * z + y * z
    ensures (x - y) * z == x * z - y * z
  {
  }

  /** A quotient of a part and the whole is between zero and one. */
  lemma QuotientBounds(f: real, part: real, whole: real)
    requires f * whole == part && 0.0 <= part <= whole && whole > 0.0
    ensures 0.0 <= f <= 1.0
  {
    ProductSign(f, whole);
    ProductSign(f - 1.0, whole);
    Distributes(f, 1.0, whole);
  }

  lemma ShareBounds(f: real, part: real, whole: real, amount: real)
    requires f * whole == part && 0.0 <= f <= 1.0 && 0.0 <= amount <= whole
    ensures 0.0 <= f * amount <= part
    ensures 0.0 <= amount - f * amount <= whole - part
  {
    Distributes(1.0, f, amount);
    Distributes(whole, amount, f);
    Distributes(1.0, f, whole - amount);
    ProductSign(f, amount);
    ProductSign(whole - amount, f);
    ProductSign(1.0 - f, amount);
    ProductSign(1.0 - f, whole - amount);
  }

  lemma ExactShareBounds(part: real, whole: real, amount: real)
    requires 0.0 <= part <= whole && whole > 0.0 && 0.0 <= amount <= whole
    ensures 0.0 <= ExactShare(part, whole, amount) <= part
    ensures 0.0 <= amount - ExactShare(part, whole, amount) <= whole - part
  {
    var f := part / whole;
    assert f * whole == part;
    QuotientBounds(f, part, whole);
    ShareBounds(f, part, whole, amount);
  }

  /** The shares of two parts make up the amount. */
  ghost predicate AddsUp(share: Share) {
    forall part, other, whole, amount :: whole > 0.0 && part + other == whole ==>
      share(part, whole, amount) + share(other, whole, amount) == amount
  }

  lemma Cancels(x: real, y: real, z: real)
    requires x * z == y * z && z != 0.0
    ensures x == y
  {
    assert x * z / z == x && y * z / z == y;
  }

  lemma QuotientsAddUp(f: real, g: real, whole: real, part: real, other: real, amount: real)
    requires whole > 0.0 && f * whole == part && g * whole == other && part + other == whole
    ensures f * amount + g * amount == amount
  {
    Distributes(f, g, whole);
    Cancels(f + g, 1.0, whole);
    Distributes(f, g, amount);
  }

  lemma ExactShareAddsUp()
    ensures AddsUp(ExactShare)
  {
    forall part, other, whole, amount | whole > 0.0 && part + other == whole
      ensures ExactShare(part, whole, amount) + ExactShare(other, whole, amount) == amount
    {
      QuotientsAddUp(part / whole, other / whole, whole, part, other, amount);
    }
  }

  /** Without rounding the shares are in bounds. */
  lemma ExactShareIsShare()
    ensures IsShare(ExactShare)
  {
    forall part, whole, amount | 0.0 <= part <= whole && whole > 0.0 && 0.0 <= amount <= whole
      ensures 0.0 <= ExactShare(part, whole, amount) <= part
      ensures 0.0 <= amount - ExactShare(part, whole, amount) <= whole - part
    {
      ExactShareBounds(part, whole, amount);
    }
  }

  /** The unit price for a total and a quantity. */
  type Division = (real, nat) -> real

  function ExactDivision(total: real, quantity: nat): real {
    if quantity == 0 then 0.0 else total / quantity as real
  }

  ghost predicate IsExactDivision(divide: Division) {
    forall total, quantity :: quantity >= 1 ==> divide(total, quantity) * quantity as real == total
  }

  lemma ExactDivisionIsExact()
    ensures IsExactDivision(ExactDivision)
  {
  }

  /** The operations whose rounding is left open; `round` is `quantize_price` for the currency. */
  datatype Arithmetic = Arithmetic(percentage: PercentageDiscount, share: Share, divide: Division, round: real -> real)

  ghost predicate IsSound(a: Arithmetic) {
    IsPercentageDiscount(a.percentage) && IsShare(a.share)
  }

  predicate Sensible(value: real, valueType: ValueType) {
    value >= 0.0 && (valueType.Percentage? ==> value <= 100.0)
  }

  // --- Rounding ---

  /** Rounding to the nearest multiple of the unit, however ties are broken. */
  ghost predicate IsRounding(round: real -> real, unit: real) {
    && unit > 0.0
    && round(0.0) == 0.0
    && (forall x :: -unit / 2.0 <= round(x) - x <= unit / 2.0)
    && forall x, y :: x <= y ==> round(x) <= round(y)
  }

  function Floor(x: real): int { x.Floor }

  /** Rounding to an integer, with ties to the even one. */
  function Round(x: real): (r: int)
    ensures -0.5 <= x - r as real <= 0.5
    ensures (x - r as real == 0.5 || x - r as real == -0.5) ==> r % 2 == 0
  {
    var low := Floor(x);
    var rest := x - low as real;
    if rest < 0.5 || (rest == 0.5 && low % 2 == 0) then low else low + 1
  }

  /** `quantize_price`: `unit` is the smallest amount of the currency. */
  function Quantize(x: real, unit: real): real
    requires unit > 0.0
  {
    Round(x / unit) as real * unit
  }

  lemma QuantizeIsNear(x: real, unit: real)
    requires unit > 0.0
    ensures -unit / 2.0 <= Quantize(x, unit) - x <= unit / 2.0
  {
    var q := x / unit;
    assert q * unit == x;
    var e := Round(q) as real - q;
    assert Quantize(x, unit) - x == e * unit;
    assert -0.5 <= e <= 0.5;
    MultiplyBounds(e, unit);
  }

  lemma MultiplyBounds(e: real, unit: real)
    requires unit > 0.0 && -0.5 <= e <= 0.5
    ensures -unit / 2.0 <= e * unit <= unit / 2.0
  {
    ProductSign(0.5 - e, unit);
    ProductSign(e + 0.5, unit);
    Distributes(0.5, e, unit);
    Distributes(e, 0.5, unit);
  }

  lemma RoundIsMonotone(x: real, y: real)
    requires x <= y
    ensures Round(x) <= Round(y)
  {
  }

  lemma DivideMonotone(x: real, y: real, unit: real)
    requires unit > 0.0 && x <= y
    ensures x / unit <= y / unit
  {
    var a, b := x / unit, y / unit;
    assert a * unit == x && b * unit == y;
    ProductSign(a - b, unit);
    Distributes(a, b, unit);
  }

  lemma QuantizeIsMonotone(x: real, y: real, unit: real)
    requires unit > 0.0 && x <= y
    ensures Quantize(x, unit) <= Quantize(y, unit)
  {
    DivideMonotone(x, y, unit);
    RoundIsMonotone(x / unit, y / unit);
    var a, b := Round(x / unit) as real, Round(y / unit) as real;
    ProductSign(b - a, unit);
    Distributes(b, a, unit);
  }

  lemma QuantizeZero(unit: real)
    requires unit > 0.0
    ensures Quantize(0.0, unit) == 0.0
  {
    assert 0.0 / unit == 0.0;
  }

  /** `quantize_price` for a currency with this unit. */
  function HalfEven(unit: real): real -> real {
    x => if unit > 0.0 then Quantize(x, unit) else x
  }

  lemma HalfEvenIsRounding(unit: real)
    requires unit > 0.0
    ensures IsRounding(HalfEven(unit), unit)
  {
    var round := HalfEven(unit);
    QuantizeZero(unit);
    forall x ensures -unit / 2.0 <= round(x) - x <= unit / 2.0 {
      QuantizeIsNear(x, unit);
    }
    forall x, y | x <= y ensures round(x) <= round(y) {
      QuantizeIsMonotone(x, y, unit);
    }
  }

  // --- The contracts can be met ---

  function ExactPercentage(price: real, value: real): real {
    price - value / 100.0 * price
  }

  lemma ExactPercentageIsDiscount()
    ensures IsPercentageDiscount(ExactPercentage)
  {
    forall price, value | price >= 0.0 && 0.0 <= value <= 100.0 ensures 0.0 <= ExactPercentage(price, value) <= price {
      ProductSign(value / 100.0, price);
      ProductSign(1.0 - value / 100.0, price);
      Distributes(1.0, value / 100.0, price);
    }
  }

  /** No rounding but to the unit of the currency. */
  function Exact(percentage: PercentageDiscount, unit: real): Arithmetic {
    Arithmetic(percentage, ExactShare, ExactDivision, HalfEven(unit))
  }

  /** Arithmetic that rounds only to the unit of the currency has every contract that the theorems ask for. */
  lemma ExactMeetsContracts(unit: real)
    requires unit > 0.0
    ensures
      var a := Exact(ExactPercentage, unit);
      IsSound(a) && AddsUp(a.share) && IsExactDivision(a.divide) && IsRounding(a.round, unit)
  {
    ExactPercentageIsDiscount();
    ExactShareIsShare();
    ExactShareAddsUp();
    ExactDivisionIsExact();
    HalfEvenIsRounding(unit);
  }
}
