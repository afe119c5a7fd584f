/** Exact decimal amounts and the one rounding operation the checkout uses:
    BigDecimal.setScale(2, RoundingMode.DOWN). Amounts are exact `real`s. */
module Decimals {

  /** `x` has no non-zero digit after the second decimal place. */
  predicate IsWholeCents(x: real)
  {
    (x * 100.0).Floor as real == x * 100.0
  }

  /** setScale(2, DOWN) on a non-negative amount: the whole cents it holds. */
  function FloorCents(x: real): (r: real)
    requires 0.0 <= x
    ensures IsWholeCents(r)
    ensures 0.0 <= r <= x && x - r < 0.01
  {
    var cents := (x * 100.0).Floor;
    assert cents as real <= x * 100.0 < cents as real + 1.0;
    var r := cents as real / 100.0;
    assert r * 100.0 == cents as real;
    r
  }

  /** setScale(2, DOWN): keep two decimal places, dropping every further digit,
      so the result moves toward zero and never away from it. */
  function SetScale2Down(x: real): (r: real)
    ensures IsWholeCents(r)
    ensures 0.0 <= x ==> 0.0 <= r <= x && x - r < 0.01
    ensures x < 0.0 ==> x <= r <= 0.0 && r - x < 0.01
  {
    if x >= 0.0 then FloorCents(x)
    else
      var r := FloorCents(-x);
      WholeCentsNeg(r);
      -r
  }

  /** Whole-cents amounts are closed under negation. */
  lemma WholeCentsNeg(x: real)
    requires IsWholeCents(x)
    ensures IsWholeCents(-x)
  {
    var n := (x * 100.0).Floor;
    assert (-x) * 100.0 == (-n) as real;
  }

  /** For a non-negative amount, setScale(2, DOWN) is the largest whole-cents
      amount not above it: no whole-cents `c <= x` lies above the result. */
  lemma SetScale2DownIsGreatest(x: real, c: real)
    requires 0.0 <= x && IsWholeCents(c) && c <= x
    ensures c <= SetScale2Down(x)
  {
  }

  /** An amount already in whole cents is left unchanged. */
  lemma SetScale2DownOfWholeCents(x: real)
    requires IsWholeCents(x)
    ensures SetScale2Down(x) == x
  {
    if x >= 0.0 {
      SetScale2DownIsGreatest(x, x);
    } else {
      WholeCentsNeg(x);
      SetScale2DownIsGreatest(-x, -x);
      assert SetScale2Down(x) == -SetScale2Down(-x);
    }
  }

  /** setScale(2, DOWN) is monotone on non-negative amounts. */
  lemma SetScale2DownMonotone(x: real, y: real)
    requires 0.0 <= x <= y
    ensures SetScale2Down(x) <= SetScale2Down(y)
  {
    SetScale2DownIsGreatest(y, SetScale2Down(x));
  }

  /** Whole-cents amounts are closed under addition. */
  lemma WholeCentsAdd(x: real, y: real)
    requires IsWholeCents(x) && IsWholeCents(y)
    ensures IsWholeCents(x + y)
  {
    var a, b := (x * 100.0).Floor, (y * 100.0).Floor;
    assert (x + y) * 100.0 == (a + b) as real;
  }
}
