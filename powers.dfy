/** Integer powers of a real base, as Python's `**` computes them for an int exponent:
    b ** -n is 1 / (b ** n). */
module Powers {

  // The sign facts about powers are lemmas rather than postconditions: as
  // postconditions they would be in scope wherever a power term occurs, and they
  // make the solver's non-linear reasoning about those terms far more expensive.

  /** x * y as a named term: products of equal factors are then equal without any
      non-linear reasoning, which keeps the proofs about shifted sums cheap. */
  function Times(x: real, y: real): real
  {
    x * y
  }

  function NatPower(b: real, n: nat): real
  {
    if n == 0 then 1.0 else b * NatPower(b, n - 1)
  }

  function Power(b: real, e: int): real
    requires b != 0.0 || e >= 0
  {
    if e >= 0 then NatPower(b, e)
    else
      NatPowerSign(b, -e);
      1.0 / NatPower(b, -e)
  }

  /** A power of a non-zero base is non-zero, and of a positive base positive. */
  lemma {:induction false} NatPowerSign(b: real, n: nat)
    ensures b != 0.0 ==> NatPower(b, n) != 0.0
    ensures b > 0.0 ==> NatPower(b, n) > 0.0
  {
    if n > 0 {
      NatPowerSign(b, n - 1);
      assert NatPower(b, n) == b * NatPower(b, n - 1);
    }
  }

  lemma PowerSign(b: real, e: int)
    requires b != 0.0 || e >= 0
    ensures b != 0.0 ==> Power(b, e) != 0.0
    ensures b > 0.0 ==> Power(b, e) > 0.0
  {
    NatPowerSign(b, if e >= 0 then e else -e);
  }

  /** One more factor of b: b^(e+1) = b^e * b, for every sign of e (the exponent e+1
      is passed as next, so that callers can write it in their own terms). */
  lemma PowerStep(b: real, e: int, next: int)
    requires b != 0.0 && next == e + 1
    ensures Power(b, next) == Power(b, e) * b
  {
    if e >= 0 {
      assert NatPower(b, e + 1) == b * NatPower(b, e);
    } else if e == -1 {
      assert NatPower(b, 1) == b * NatPower(b, 0);
    } else {
      NegativePowerStep(b, e);
    }
  }

  /** The step above with the product as a named term. */
  lemma PowerStepTimes(b: real, e: int, next: int)
    requires b != 0.0 && next == e + 1
    ensures Power(b, next) == Times(Power(b, e), b)
  {
    PowerStep(b, e, next);
  }

  lemma NegativePowerStep(b: real, e: int)
    requires b != 0.0 && e < -1
    ensures Power(b, e + 1) == Power(b, e) * b
  {
    var n := -(e + 1);
    assert -e == n + 1;
    NatPowerSign(b, n);
    assert NatPower(b, n + 1) == b * NatPower(b, n);
    Unshift(NatPower(b, n + 1), b, NatPower(b, n));
  }

  lemma {:induction false} NatPowerOfOne(n: nat)
    ensures NatPower(1.0, n) == 1.0
  {
    if n > 0 {
      NatPowerOfOne(n - 1);
    }
  }

  lemma PowerOfOne(e: int)
    ensures Power(1.0, e) == 1.0
  {
    NatPowerOfOne(if e >= 0 then e else -e);
  }

  /** Exponents add: b^m * b^k = b^(m+k) (passed as mk), for k >= 0 and any m. */
  lemma {:induction false} PowerAdd(b: real, m: int, k: nat, mk: int)
    requires b != 0.0 && mk == m + k
    ensures Times(Power(b, m), Power(b, k)) == Power(b, mk)
  {
    if k == 0 {
      assert Power(b, 0) == 1.0;
    } else {
      PowerAdd(b, m, k - 1, mk - 1);
      PowerStep(b, k - 1, k);
      PowerStep(b, mk - 1, mk);
      ProductStep(Power(b, m), Power(b, k - 1), Power(b, mk - 1), Power(b, k), Power(b, mk), b);
    }
  }

  lemma ProductStep(x: real, y1: real, z1: real, y: real, z: real, b: real)
    requires Times(x, y1) == z1 && y == y1 * b && z == z1 * b
    ensures Times(x, y) == z
  {
  }

  /** 1/(b*q) * b = 1/q: dividing by one factor fewer. */
  lemma Unshift(p: real, b: real, q: real)
    requires b != 0.0 && q != 0.0 && p == b * q
    ensures 1.0 / q == (1.0 / p) * b
  {
  }
}
