/**
 * Powers of ten over the reals. The grid code repeatedly multiplies or divides
 * by 10.0 in loops; this module gives those loops a closed-form meaning.
 */
module Numeric {

  /** 10^e for any integer e. */
  function Pow10(e: int): real
    decreases if e >= 0 then e else -e
  {
    if e == 0 then 1.0
    else if e > 0 then 10.0 * Pow10(e - 1)
    else Pow10(e + 1) / 10.0
  }

  lemma {:induction false} Pow10Positive(e: int)
    ensures Pow10(e) > 0.0
    decreases if e >= 0 then e else -e
  {
    if e > 0 {
      Pow10Positive(e - 1);
    } else if e < 0 {
      Pow10Positive(e + 1);
    }
  }

  /** One more factor of ten, whichever side of zero e is on. */
  lemma {:induction false} Pow10Succ(e: int)
    ensures Pow10(e + 1) == 10.0 * Pow10(e)
  {
    if e < 0 {
      assert Pow10(e) == Pow10(e + 1) / 10.0;
    }
  }

  lemma Pow10Add(a: int, b: int)
    ensures Pow10(a + b) == Pow10(a) * Pow10(b)
  {
    if b >= 0 {
      Pow10AddUp(a, b);
    } else {
      Pow10AddDown(a, -b);
    }
  }

  lemma {:induction false} Pow10AddUp(a: int, n: nat)
    ensures Pow10(a + n) == Pow10(a) * Pow10(n)
  {
    if n > 0 {
      Pow10AddUp(a, n - 1);
      var x, y, z := Pow10(a), Pow10(n - 1), Pow10(a + n - 1);
      Pow10Succ(a + n - 1);
      Pow10Succ(n - 1);
      assert Pow10(a + n) == 10.0 * z;
      assert Pow10(n) == 10.0 * y;
      ShiftFactor(x, y);
    }
  }

  lemma {:induction false} Pow10AddDown(a: int, n: nat)
    ensures Pow10(a - n) == Pow10(a) * Pow10(-(n as int))
  {
    if n > 0 {
      Pow10AddDown(a, n - 1);
      var x, y, z := Pow10(a), Pow10(-(n as int)), Pow10(a - n);
      Pow10Succ(a - n);
      Pow10Succ(-(n as int));
      assert Pow10(a - n + 1) == 10.0 * z;
      assert Pow10(-(n as int) + 1) == 10.0 * y;
      ShiftFactor(x, y);
    }
  }

  lemma ShiftFactor(x: real, y: real)
    ensures 10.0 * (x * y) == x * (10.0 * y)
  {
  }

  lemma Pow10Neg(e: int)
    ensures Pow10(-e) * Pow10(e) == 1.0
  {
    Pow10Add(-e, e);
  }

  lemma {:induction false} Pow10Monotone(a: int, b: int)
    requires a <= b
    ensures Pow10(a) <= Pow10(b)
    decreases b - a
  {
    if a < b {
      Pow10Monotone(a, b - 1);
      Pow10Succ(b - 1);
      Pow10Positive(b - 1);
    }
  }

  lemma Pow10StrictMonotone(a: int, b: int)
    requires a < b
    ensures Pow10(a) < Pow10(b)
  {
    Pow10Monotone(a, b - 1);
    Pow10Succ(b - 1);
    Pow10Positive(b - 1);
  }

  /** e is the decade of v: 10^e <= v < 10^(e+1), or v is zero and e is zero (nlog10(0) == 0). */
  predicate IsDecade(v: real, e: int) {
    (v == 0.0 && e == 0) || (v > 0.0 && Pow10(e) <= v < Pow10(e + 1))
  }

  /** The decade of a positive number is unique. */
  lemma DecadeUnique(v: real, e1: int, e2: int)
    requires v > 0.0 && IsDecade(v, e1) && IsDecade(v, e2)
    ensures e1 == e2
  {
    if e1 < e2 {
      Pow10Monotone(e1 + 1, e2);
    } else if e2 < e1 {
      Pow10Monotone(e2 + 1, e1);
    }
  }

  /**
   * The decade of a non-negative number, what floor(nlog10(v)) computes:
   * scale by ten until the value lies in [1, 10). Zero has decade 0, as
   * nlog10(0) is 0.
   */
  function DecadeOf(v: real): (e: int)
    requires v >= 0.0
    ensures IsDecade(v, e)
    decreases if v < 1.0 then 1 else 0, if v == 0.0 then 0 else if v < 1.0 then (1.0 / v).Floor else v.Floor
  {
    if v == 0.0 then 0
    else if v < 1.0 then
      ShrinkingInverse(v);
      var e := DecadeOf(v * 10.0);
      Pow10Succ(e - 1);
      e - 1
    else if v < 10.0 then
      assert Pow10(1) == 10.0;
      0
    else
      var e := DecadeOf(v / 10.0);
      Pow10Succ(e);
      Pow10Succ(e + 1);
      e + 1
  }

  /** Scaling a value below one by ten shrinks the floor of its inverse, unless it reaches one. */
  lemma ShrinkingInverse(v: real)
    requires 0.0 < v < 1.0
    ensures v * 10.0 < 1.0 ==> 0 <= (1.0 / (v * 10.0)).Floor < (1.0 / v).Floor
  {
    if v * 10.0 < 1.0 {
      var x := 1.0 / v;
      assert 1.0 / (v * 10.0) == x / 10.0;
      assert x > 10.0;
    }
  }

  function Abs(x: real): (r: real)
    ensures r >= 0.0 && (r == x || r == -x)
  {
    if x < 0.0 then -x else x
  }
}
