/** Integer arithmetic shared by the contracts: floored ratios with the 128-bit abort checks of
    `Uint128`, and the facts about floored division that every rounding argument rests on. */
module Arithmetic {
  datatype Option<+T> = None | Some(value: T)

  datatype Result<+T, +E> = Ok(value: T) | Err(error: E)

  const TWO_128: nat := 0x1_0000_0000_0000_0000_0000_0000_0000_0000
  const TWO_256: nat := TWO_128 * TWO_128

  /** Basis points in one whole. */
  const BPS: nat := 10_000

  function Min(a: nat, b: nat): nat { if a <= b then a else b }

  function Max(a: nat, b: nat): nat { if a >= b then a else b }

  /** Floored division, the rounding of every `multiply_ratio` and `Uint256` quotient. */
  function Floor(a: nat, b: nat): (q: nat)
    requires b > 0
    ensures q * b <= a < q * b + b
  {
    Quotient(a, b);
    a / b
  }

  lemma Quotient(a: nat, b: nat)
    requires b > 0
    ensures (a / b) >= 0 && (a / b) * b <= a < (a / b) * b + b
  {
    assert a == (a / b) * b + a % b;
  }

  lemma MulLe(a: nat, b: nat, c: nat)
    requires a <= b
    ensures a * c <= b * c && c * a <= c * b
  {
  }

  lemma MulLtInt(a: int, b: int, c: nat)
    requires a < b && c > 0
    ensures a * c < b * c
  {
    MulPositive(b - a, c);
    assert (b - a) * c == b * c - a * c;
  }

  lemma MulSwap(a: int, b: int, c: int)
    ensures (a * b) * c == (a * c) * b
  {
  }

  lemma MulPositive(a: nat, b: nat)
    requires a > 0 && b > 0
    ensures a * b > 0
  {
  }

  /** `a * c <= b * c` with a positive `c` cancels. */
  lemma CancelLe(a: int, b: int, c: nat)
    requires c > 0 && a * c <= b * c
    ensures a <= b
  {
    if b < a {
      MulLtInt(b, a, c);
    }
  }

  /** The floored quotient is the largest `q` with `q * b <= a`. */
  lemma FloorIsLargest(a: nat, b: nat, q: nat)
    requires b > 0
    ensures q <= Floor(a, b) <==> q * b <= a
  {
    var f := Floor(a, b);
    if q <= f {
      MulLe(q, f, b);
    } else {
      MulLe(f + 1, q, b);
      assert (f + 1) * b == f * b + b;
    }
  }

  /** The floored quotient is the only `q` between its two bounds. */
  lemma FloorUnique(a: nat, b: nat, q: nat)
    requires b > 0 && q * b <= a < q * b + b
    ensures Floor(a, b) == q
  {
    FloorIsLargest(a, b, q);
    FloorIsLargest(a, b, q + 1);
    assert (q + 1) * b == q * b + b;
  }

  lemma FloorMonotone(a: nat, a': nat, b: nat)
    requires b > 0 && a <= a'
    ensures Floor(a, b) <= Floor(a', b)
  {
    FloorIsLargest(a', b, Floor(a, b));
  }

  lemma FloorOfMultiple(q: nat, b: nat)
    requires b > 0
    ensures Floor(q * b, b) == q
  {
    FloorUnique(q * b, b, q);
  }

  /** Splitting a sum loses at most one unit to rounding, and never gains. */
  lemma FloorOfSum(a: nat, c: nat, b: nat)
    requires b > 0
    ensures Floor(a, b) + Floor(c, b) <= Floor(a + c, b) <= Floor(a, b) + Floor(c, b) + 1
  {
    var x, y := Floor(a, b), Floor(c, b);
    assert (x + y) * b == x * b + y * b;
    FloorIsLargest(a + c, b, x + y);
    assert (x + y + 2) * b == x * b + y * b + 2 * b;
    FloorIsLargest(a + c, b, x + y + 2);
  }

  /** Dividing twice is dividing once by the product. */
  lemma FloorOfFloor(a: nat, b: nat, c: nat)
    requires b > 0 && c > 0
    ensures b * c > 0 && Floor(Floor(a, b), c) == Floor(a, b * c)
  {
    assert b * c > 0;
    var x := Floor(a, b);
    var y := Floor(x, c);
    assert y * (b * c) == (y * c) * b;
    MulLe(y * c, x, b);
    MulLe(x + 1, y * c + c, b);
    assert (x + 1) * b == x * b + b;
    assert (y * c + c) * b == y * (b * c) + b * c;
    FloorUnique(a, b * c, y);
  }

  /** Scaling numerator and denominator alike leaves the quotient unchanged. */
  lemma FloorOfScaled(a: nat, b: nat, k: nat)
    requires b > 0 && k > 0
    ensures b * k > 0 && Floor(a * k, b * k) == Floor(a, b)
  {
    assert b * k > 0;
    FloorOfMultiple(a, k);
    assert k * b == b * k;
    FloorOfFloor(a * k, k, b);
  }

  /** `checked_ratio` of the contracts: a 256-bit product, a floored quotient, and an error when the
      denominator is zero or the result does not fit in 128 bits. Both factors are `Uint128`, so the
      product itself always fits. */
  function CheckedRatio(value: nat, numerator: nat, denominator: nat): (r: Option<nat>)
    ensures r.Some? ==> r.value < TWO_128
  {
    if denominator == 0 then None
    else
      var q := Floor(value * numerator, denominator);
      if q < TWO_128 then Some(q) else None
  }
}
