/** `calculateDiscountedPrice`: a price less a percentage discount, rounded
    to the cent. Prices are in minor units and the discount is a whole
    percentage, so the exact discounted price is `price * (100 - d) / 100`
    minor units and `toFixed(2)` rounds it to a whole number of them. */
module Price {
  import opened Base

  /** `n / d` rounded to the nearest integer, halves away from zero, as
      `toFixed` rounds. */
  function RoundDiv(n: int, d: int): (r: int)
    requires d > 0
    ensures 2 * (r * d - n) <= d && 2 * (n - r * d) <= d
    ensures n >= 0 ==> r >= 0
    ensures n <= 0 ==> r <= 0
  {
    if n >= 0 then (2 * n + d) / (2 * d) else -((2 * -n + d) / (2 * d))
  }

  const PERCENT := 100

  function DiscountedPrice(price: int, discountPercent: Option<int>): int
  {
    if discountPercent.None? || discountPercent.value <= 0 then price
    else RoundDiv(price * (PERCENT - discountPercent.value), PERCENT)
  }

  /** No discount, or a zero or negative one, leaves the price alone; a full
      discount gives 0; a discount up to 100 gives a price between 0 and the
      original; above 100 the price goes to zero or below; and the result is
      within half a cent of the exact discounted price. */
  lemma DiscountedPriceSpec(price: int, discountPercent: Option<int>)
    ensures discountPercent.None? || discountPercent.value <= 0 ==> DiscountedPrice(price, discountPercent) == price
    ensures discountPercent == Some(PERCENT) ==> DiscountedPrice(price, discountPercent) == 0
    ensures price >= 0 && discountPercent.Some? && 0 < discountPercent.value <= PERCENT ==>
      0 <= DiscountedPrice(price, discountPercent) <= price
    ensures price >= 0 && discountPercent.Some? && discountPercent.value > PERCENT ==>
      DiscountedPrice(price, discountPercent) <= 0
    ensures discountPercent.Some? && discountPercent.value > 0 ==>
      var r := DiscountedPrice(price, discountPercent);
      var exact := price * (PERCENT - discountPercent.value);
      2 * (r * PERCENT - exact) <= PERCENT && 2 * (exact - r * PERCENT) <= PERCENT
  {
    if discountPercent.Some? && discountPercent.value > 0 {
      var d := discountPercent.value;
      var n := price * (PERCENT - d);
      assert DiscountedPrice(price, discountPercent) == RoundDiv(n, PERCENT);
      if price >= 0 {
        DiscountedNumerator(price, d);
        if d <= PERCENT {
          RoundDivAtMost(n, price);
        }
      }
    }
  }

  /** The exact discounted amount of a non-negative price: between 0 and
      `100 * price` up to a full discount, and 0 or below past it. */
  lemma DiscountedNumerator(price: int, d: int)
    requires price >= 0 && d > 0
    ensures d <= PERCENT ==> 0 <= price * (PERCENT - d) <= price * PERCENT
    ensures d == PERCENT ==> price * (PERCENT - d) == 0
    ensures d > PERCENT ==> price * (PERCENT - d) <= 0
  {
    assert price * PERCENT - price * (PERCENT - d) == price * d;
  }

  /** Rounding an amount of at most `100 * price` gives at most `price`. */
  lemma RoundDivAtMost(n: int, price: int)
    requires n <= price * PERCENT
    ensures RoundDiv(n, PERCENT) <= price
  {
    var r := RoundDiv(n, PERCENT);
    assert 2 * r * PERCENT <= 2 * n + PERCENT;
  }

  /** A larger discount never gives a higher price. */
  lemma DiscountMonotone(price: int, d1: int, d2: int)
    requires price >= 0 && 0 < d1 <= d2
    ensures DiscountedPrice(price, Some(d2)) <= DiscountedPrice(price, Some(d1))
  {
    var n1 := price * (PERCENT - d1);
    var n2 := price * (PERCENT - d2);
    assert n2 <= n1 by {
      assert n1 - n2 == price * (d2 - d1);
    }
    RoundDivMonotone(n2, n1);
  }

  lemma RoundDivMonotone(a: int, b: int)
    requires a <= b
    ensures RoundDiv(a, PERCENT) <= RoundDiv(b, PERCENT)
  {
    if a < b {
      var ra := RoundDiv(a, PERCENT);
      var rb := RoundDiv(b, PERCENT);
      assert 2 * (ra * PERCENT - a) <= PERCENT && 2 * (b - rb * PERCENT) <= PERCENT;
    }
  }
}
