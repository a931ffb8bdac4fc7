/**
 * Grid spacing: the "nice number" rounder round_up, the file-static grid
 * cursor of init_grid / step_grid, the multiplier table a logarithmic axis
 * steps through, and the engineering exponent and zero-line role of the axis
 * drawing code.
 *
 * log10, pow and the floor of a logarithm are not computed: the decade
 * exponent of a value is an input satisfying IsDecade, 10^step is an input,
 * and the logarithm stored in the juke table is a function parameter.
 */
module Grid {
  import opened Numeric
  import opened GxTypes

  /** The mantissa round_up picks for a normalised value: the least of 1, 2, 5, 10 not below it. */
  function Pick(m: real): (d: real)
    ensures d == 1.0 || d == 2.0 || d == 5.0 || d == 10.0
    ensures m <= 10.0 ==> m <= d
    ensures d == 2.0 ==> m > 1.0
    ensures d == 5.0 ==> m > 2.0
    ensures d == 10.0 ==> m > 5.0
  {
    if m > 5.0 then 10.0 else if m > 2.0 then 5.0 else if m > 1.0 then 2.0 else 1.0
  }

  /** val scaled into its decade: val * 10^-e. */
  function Mantissa(val: real, e: int): real {
    val * Pow10(-e)
  }

  /** The value round_up returns for val whose decade is e. */
  function NiceStep(val: real, e: int): real
    requires val >= 0.0 && IsDecade(val, e)
  {
    Pick(Mantissa(val, e)) * Pow10(e)
  }

  lemma MulMono(a: real, b: real, p: real)
    requires a <= b && p > 0.0
    ensures a * p <= b * p
  {
  }

  lemma MulStrict(a: real, b: real, p: real)
    requires a < b && p > 0.0
    ensures a * p < b * p
  {
  }

  lemma Assoc(a: real, b: real, c: real)
    ensures (a * b) * c == a * (b * c)
  {
  }

  lemma MulPos(a: real, b: real)
    requires a > 0.0 && b > 0.0
    ensures a * b > 0.0
  {
  }

  /** Scaling a positive value by 10^-e, with e its decade, lands in [1, 10) and scales back. */
  lemma Normalised(val: real, e: int) returns (m: real)
    requires val > 0.0 && IsDecade(val, e)
    ensures m == Mantissa(val, e) && 1.0 <= m < 10.0 && m * Pow10(e) == val
  {
    var p, q, p1 := Pow10(e), Pow10(-e), Pow10(e + 1);
    m := Mantissa(val, e);
    assert m == val * q;
    Pow10Positive(-e);
    Pow10Neg(e);
    assert q * p == 1.0;
    Pow10Add(e + 1, -e);
    assert Pow10(1) == 10.0;
    assert p1 * q == 10.0;
    assert p <= val < p1;
    calc {
      1.0;
      q * p;
      p * q;
      <= { MulMono(p, val, q); }
      val * q;
      m;
    }
    calc {
      m;
      val * q;
      < { MulStrict(val, p1, q); }
      p1 * q;
      10.0;
    }
    calc {
      m * p;
      (val * q) * p;
      { Assoc(val, q, p); }
      val * (q * p);
      val * 1.0;
      val;
    }
  }

  /** NiceStep as the picked mantissa times the decade's power. */
  lemma NiceStepParts(val: real, e: int) returns (m: real, p: real)
    requires val > 0.0 && IsDecade(val, e)
    ensures 1.0 <= m < 10.0 && p > 0.0 && m * p == val
    ensures p == Pow10(e) && p <= val
    ensures NiceStep(val, e) == Pick(m) * p
  {
    m := Normalised(val, e);
    p := Pow10(e);
    Pow10Positive(e);
  }

  /** round_up never rounds down. */
  lemma NiceStepAtLeast(val: real, e: int)
    requires val >= 0.0 && IsDecade(val, e)
    ensures NiceStep(val, e) >= val
  {
    if val > 0.0 {
      var m, p := NiceStepParts(val, e);
      PickAtLeast(m, p, val);
    } else {
      NiceStepPositive(val, e);
    }
  }

  lemma PickAtLeast(m: real, p: real, val: real)
    requires m < 10.0 && p > 0.0 && m * p == val
    ensures Pick(m) * p >= val
  {
    MulMono(m, Pick(m), p);
  }

  lemma NiceStepPositive(val: real, e: int)
    requires val >= 0.0 && IsDecade(val, e)
    ensures NiceStep(val, e) > 0.0
  {
    Pow10Positive(e);
    MulPos(Pick(Mantissa(val, e)), Pow10(e));
  }

  /** round_up of a positive value stays below two and a half times it. */
  lemma NiceStepBelow(val: real, e: int)
    requires val > 0.0 && IsDecade(val, e)
    ensures NiceStep(val, e) < 2.5 * val
  {
    var m, p := NiceStepParts(val, e);
    PickBelow(m, p, val);
  }

  lemma PickBelow(m: real, p: real, val: real)
    requires 1.0 <= m && p > 0.0 && m * p == val
    ensures Pick(m) * p < 2.5 * val
  {
    var c := 2.5 * m;
    MulStrict(Pick(m), c, p);
    Assoc(2.5, m, p);
  }

  /** round_up returns 1, 2 or 5 times a power of ten. */
  lemma NiceStepForm(val: real, e: int) returns (d: real, k: int)
    requires val >= 0.0 && IsDecade(val, e)
    ensures d == 1.0 || d == 2.0 || d == 5.0
    ensures NiceStep(val, e) == d * Pow10(k)
  {
    var n := Pick(Mantissa(val, e));
    if n == 10.0 {
      d, k := 1.0, e + 1;
      Pow10Succ(e);
    } else {
      d, k := n, e;
    }
  }

  /** No number of the form 1, 2 or 5 times a power of ten lies between val and round_up(val). */
  lemma NiceStepLeast(val: real, e: int, d: real, k: int)
    requires val > 0.0 && IsDecade(val, e)
    requires d == 1.0 || d == 2.0 || d == 5.0
    requires d * Pow10(k) >= val
    ensures d * Pow10(k) >= NiceStep(val, e)
  {
    var m, p := NiceStepParts(val, e);
    var pk := Pow10(k);
    LeastParts(e, k, d, m, p, pk, val);
  }

  lemma LeastParts(e: int, k: int, d: real, m: real, p: real, pk: real, val: real)
    requires d == 1.0 || d == 2.0 || d == 5.0
    requires p == Pow10(e) && pk == Pow10(k) && p <= val
    requires m < 10.0 && p > 0.0 && m * p == val && d * pk >= val
    ensures d * pk >= Pick(m) * p
  {
    if k > e {
      AboveDecade(e, k, d, Pick(m));
    } else if k < e {
      BelowDecade(e, k, d, val);
      assert false;
    } else {
      SameDecade(d, m, p, val);
    }
  }

  /** A nice number from a higher decade is at least ten times 10^e, which bounds NiceStep. */
  lemma AboveDecade(e: int, k: int, d: real, n: real)
    requires k > e && d >= 1.0 && n <= 10.0
    ensures d * Pow10(k) >= n * Pow10(e)
  {
    var p, pk := Pow10(e), Pow10(k);
    Pow10Monotone(e + 1, k);
    Pow10Succ(e);
    Pow10Positive(e);
    ChainAbove(n, p, d, pk);
  }

  lemma ChainAbove(n: real, p: real, d: real, pk: real)
    requires n <= 10.0 && p > 0.0 && 10.0 * p <= pk && d >= 1.0
    ensures d * pk >= n * p
  {
    MulMono(n, 10.0, p);
    MulMono(1.0, d, pk);
  }

  /** A nice number from a lower decade stays below 10^e, hence below val. */
  lemma BelowDecade(e: int, k: int, d: real, val: real)
    requires k < e && d <= 5.0 && Pow10(e) <= val
    ensures d * Pow10(k) < val
  {
    TenfoldBelow(k, e);
    Pow10Positive(k);
    ChainBelow(d, Pow10(k), Pow10(e), val);
  }

  lemma TenfoldBelow(k: int, e: int)
    requires k < e
    ensures 10.0 * Pow10(k) <= Pow10(e)
  {
    Pow10Monotone(k + 1, e);
    Pow10Succ(k);
  }

  lemma ChainBelow(d: real, pk: real, pe: real, val: real)
    requires d <= 5.0 && 0.0 < pk && 10.0 * pk <= pe <= val
    ensures d * pk < val
  {
    MulMono(d, 5.0, pk);
  }

  /** Within the decade of val, a nice mantissa not below m is not below Pick(m). */
  lemma SameDecade(d: real, m: real, p: real, val: real)
    requires d == 1.0 || d == 2.0 || d == 5.0
    requires p > 0.0 && m * p == val && d * p >= val
    ensures d * p >= Pick(m) * p
  {
    if d < m {
      MulStrict(d, m, p);
    }
    MulMono(Pick(m), d, p);
  }

  /** One multiplication by 10 raises the power by one. */
  lemma ScaleUp(x: real, v: real, n: int)
    requires v == x * Pow10(n)
    ensures v * 10.0 == x * Pow10(n + 1)
  {
    Pow10Succ(n);
    ShiftFactor(x, Pow10(n));
  }

  /** One division by 10 lowers the power by one. */
  lemma ScaleDown(x: real, v: real, n: int)
    requires v == x * Pow10(n)
    ensures v / 10.0 == x * Pow10(n - 1)
  {
    Pow10Succ(n - 1);
    ShiftFactor(x, Pow10(n - 1));
  }

  /**
   * round_up: normalise into [1, 10) by repeated scaling, pick the mantissa,
   * restore the exponent by the opposite scaling.
   */
  method RoundUp(val: real, exponent: int) returns (r: real)
    requires val >= 0.0 && IsDecade(val, exponent)
    ensures r == NiceStep(val, exponent)
  {
    var v := Normalise(val, exponent);
    r := Restore(Pick(v), exponent);
    assert v == Mantissa(val, exponent);
  }

  /** The first pair of loops of round_up: scale val by 10^-exponent. */
  method Normalise(val: real, exponent: int) returns (v: real)
    ensures v == val * Pow10(-exponent)
  {
    v := val;
    var idx: int;
    if exponent < 0 {
      idx := exponent;
      while idx < 0
        invariant exponent <= idx <= 0
        invariant v == val * Pow10(idx - exponent)
      {
        ScaleUp(val, v, idx - exponent);
        v := v * 10.0;
        idx := idx + 1;
      }
      assert idx - exponent == -exponent;
    } else {
      idx := 0;
      while idx < exponent
        invariant 0 <= idx <= exponent
        invariant v == val * Pow10(-idx)
      {
        ScaleDown(val, v, -idx);
        v := v / 10.0;
        idx := idx + 1;
      }
    }
  }

  /** The second pair of loops of round_up: scale the mantissa back by 10^exponent. */
  method Restore(d: real, exponent: int) returns (w: real)
    ensures w == d * Pow10(exponent)
  {
    w := d;
    var idx: int;
    if exponent < 0 {
      idx := exponent;
      while idx < 0
        invariant exponent <= idx <= 0
        invariant w == d * Pow10(exponent - idx)
      {
        ScaleDown(d, w, exponent - idx);
        w := w / 10.0;
        idx := idx + 1;
      }
    } else {
      idx := 0;
      while idx < exponent
        invariant 0 <= idx <= exponent
        invariant w == d * Pow10(idx)
      {
        ScaleUp(d, w, idx);
        w := w * 10.0;
        idx := idx + 1;
      }
    }
  }

  /** Starts at 1 and strictly increases. */
  predicate Rising(m: seq<real>) {
    |m| >= 1 && m[0] == 1.0 && forall i, j :: 0 <= i < j < |m| ==> m[i] < m[j]
  }

  /** The multipliers of a log-axis juke table: 1 first, strictly increasing, all below 10. */
  predicate JukeShape(m: seq<real>) {
    Rising(m) && forall i :: 0 <= i < |m| ==> m[i] < 10.0
  }

  lemma AppendRising(m: seq<real>, v: real)
    requires Rising(m) && m[|m| - 1] < v
    ensures Rising(m + [v]) && (m + [v])[|m|] == v
  {
    var n := m + [v];
    forall i, j | 0 <= i < j < |n| ensures n[i] < n[j] {
      if j == |m| {
        assert n[i] <= m[|m| - 1];
      }
    }
  }

  lemma DropRising(m: seq<real>)
    requires Rising(m) && |m| >= 2
    ensures Rising(m[..|m| - 1]) && m[..|m| - 1][|m| - 2] < m[|m| - 1]
  {
  }

  lemma RisingBelow(m: seq<real>)
    requires Rising(m) && m[|m| - 1] < 10.0
    ensures JukeShape(m)
  {
    forall i | 0 <= i < |m| ensures m[i] < 10.0 {
      if i < |m| - 1 {
        assert m[i] < m[|m| - 1];
      }
    }
  }

  /**
   * The multipliers init_grid stores (as logarithms) for a logarithmic axis
   * whose step spans a factor ratio = 10^step within one decade. The first
   * entry 1 stands for the 0.0 the table always starts with.
   */
  method LogJuke(ratio: real) returns (m: seq<real>)
    ensures JukeShape(m) && |m| <= 101
    ensures ratio > 3.0 ==> m == [1.0]
    ensures 2.0 < ratio <= 3.0 ==> m == [1.0, 3.0]
    ensures 4.0 / 3.0 < ratio <= 2.0 ==> m == [1.0, 2.0, 5.0]
    ensures 1.25 < ratio <= 4.0 / 3.0 ==> m == [1.0, 1.5, 2.0, 3.0, 5.0, 7.0]
  {
    m := [1.0];
    if ratio > 3.0 {
      return;
    }
    if ratio > 2.0 {
      m := m + [3.0];
    } else if ratio > 4.0 / 3.0 {
      m := m + [2.0, 5.0];
    } else if ratio > 1.25 {
      m := m + [1.5, 2.0, 3.0, 5.0, 7.0];
    } else {
      m := FineJuke(ratio);
    }
  }

  /** The walk state of the fine-grained table: x is the last multiplier added, h counts half steps. */
  ghost predicate Walk(m: seq<real>, x: real, h: int) {
    2 <= h <= 20 && x == h as real / 2.0 &&
    Rising(m) && m[|m| - 1] == x && |m| <= 1 + 5 * (h - 2)
  }

  /** The table for ratio <= 1.25: tenths, then halves, then whole numbers, then the fix-ups. */
  method FineJuke(ratio: real) returns (m: seq<real>)
    ensures JukeShape(m) && |m| <= 101
  {
    var x;
    ghost var h;
    m, x, h := TenthSteps(ratio);
    m, x, h := HalfSteps(ratio, m, x, h);
    m, x, h := WholeSteps(ratio, m, x, h);
    m := FinishJuke(m, x, h);
  }

  /** The first loop of the fine table, and the half step that lands x on a whole number. */
  method TenthSteps(ratio: real) returns (m: seq<real>, x: real, ghost h: int)
    ensures Walk(m, x, h) && h % 2 == 0
  {
    m, x, h := [1.0], 1.0, 2;
    while x < 10.0 && (x + 0.5) / (x + 0.4) >= ratio
      invariant Walk(m, x, h)
      decreases 20 - h
    {
      AppendTenths(m, x, h);
      m := m + [x + 0.1, x + 0.2, x + 0.3, x + 0.4, x + 0.5];
      x := x + 0.5;
      h := h + 1;
    }
    HalfParity(x, h);
    if x.Floor as real != x {
      AppendHalf(m, x, h);
      x := x + 0.5;
      m := m + [x];
      h := h + 1;
    }
  }

  /** The half step after the first loop, taken when x is not a whole number. */
  lemma AppendHalf(m: seq<real>, x: real, h: int)
    requires Walk(m, x, h) && h % 2 == 1
    ensures Walk(m + [x + 0.5], x + 0.5, h + 1) && (h + 1) % 2 == 0
  {
    AppendRising(m, x + 0.5);
  }

  /** One pass of the first loop: five tenths, ending half a unit further on. */
  lemma AppendTenths(m: seq<real>, x: real, h: int)
    requires Walk(m, x, h) && x < 10.0
    ensures Walk(m + [x + 0.1, x + 0.2, x + 0.3, x + 0.4, x + 0.5], x + 0.5, h + 1)
  {
    AppendRising(m, x + 0.1);
    var m1 := m + [x + 0.1];
    AppendRising(m1, x + 0.2);
    var m2 := m1 + [x + 0.2];
    AppendRising(m2, x + 0.3);
    var m3 := m2 + [x + 0.3];
    AppendRising(m3, x + 0.4);
    var m4 := m3 + [x + 0.4];
    AppendRising(m4, x + 0.5);
    assert m4 + [x + 0.5] == m + [x + 0.1, x + 0.2, x + 0.3, x + 0.4, x + 0.5];
  }

  /** A multiple of one half is a whole number exactly when it is an even number of halves. */
  lemma HalfParity(x: real, h: int)
    requires x == h as real / 2.0
    ensures (x.Floor as real == x) <==> h % 2 == 0
  {
    var k := h / 2;
    if h % 2 == 0 {
      assert x == k as real;
    } else {
      assert x == k as real + 0.5;
      assert x.Floor == k;
    }
  }

  /** The second loop: two multipliers per whole step. */
  method HalfSteps(ratio: real, m0: seq<real>, x0: real, ghost h0: int)
    returns (m: seq<real>, x: real, ghost h: int)
    requires Walk(m0, x0, h0) && h0 % 2 == 0
    ensures Walk(m, x, h) && h % 2 == 0
  {
    m, x, h := m0, x0, h0;
    while x < 10.0 && (x + 1.0) / (x + 0.5) >= ratio
      invariant Walk(m, x, h) && h % 2 == 0
      decreases 20 - h
    {
      AppendHalves(m, x, h);
      m := m + [x + 0.5, x + 1.0];
      x := x + 1.0;
      h := h + 2;
    }
  }

  lemma AppendHalves(m: seq<real>, x: real, h: int)
    requires Walk(m, x, h) && h % 2 == 0 && x < 10.0
    ensures Walk(m + [x + 0.5, x + 1.0], x + 1.0, h + 2) && (h + 2) % 2 == 0
  {
    AppendRising(m, x + 0.5);
    AppendRising(m + [x + 0.5], x + 1.0);
    assert m + [x + 0.5] + [x + 1.0] == m + [x + 0.5, x + 1.0];
  }

  lemma AppendWhole(m: seq<real>, x: real, h: int)
    requires Walk(m, x, h) && h % 2 == 0 && x < 10.0
    ensures Walk(m + [x + 1.0], x + 1.0, h + 2) && (h + 2) % 2 == 0
  {
    AppendRising(m, x + 1.0);
  }

  /** The third loop: one multiplier per whole step. */
  method WholeSteps(ratio: real, m0: seq<real>, x0: real, ghost h0: int)
    returns (m: seq<real>, x: real, ghost h: int)
    requires Walk(m0, x0, h0) && h0 % 2 == 0
    ensures Walk(m, x, h) && h % 2 == 0
  {
    m, x, h := m0, x0, h0;
    while x < 10.0 && (x + 1.0) / x >= ratio
      invariant Walk(m, x, h) && h % 2 == 0
      decreases 20 - h
    {
      AppendWhole(m, x, h);
      m := m + [x + 1.0];
      x := x + 1.0;
      h := h + 2;
    }
  }

  /** The fix-ups after the loops: a trailing 7 becomes 8, a 2-step gap is closed, a 10 is dropped. */
  method FinishJuke(m0: seq<real>, x0: real, ghost h: int) returns (m: seq<real>)
    requires Walk(m0, x0, h) && h % 2 == 0
    ensures JukeShape(m) && |m| <= 101
  {
    m := m0;
    var x := x0;
    if x == 7.0 {
      DropRising(m);
      m := m[..|m| - 1];
      x := 6.0;
    }
    assert m[|m| - 1] < 7.0 || 8.0 <= x == m[|m| - 1];
    if x < 7.0 {
      AppendRising(m, x + 2.0);
      m := m + [x + 2.0];
    }
    if x == 10.0 {
      DropRising(m);
      m := m[..|m| - 1];
    }
    RisingBelow(m);
  }

  /** The engineering exponent of a value whose decade is e: e rounded down to a multiple of 3. */
  function EngExponent(e: int): (x: int)
    ensures x % 3 == 0 && x <= e < x + 3
  {
    (e / 3) * 3
  }

  /** The larger magnitude of the two world bounds of an axis. */
  function Larger(a: real, b: real): (r: real)
    ensures r == Abs(a) || r == Abs(b)
    ensures r >= Abs(a) && r >= Abs(b)
  {
    if Abs(a) > Abs(b) then Abs(a) else Abs(b)
  }

  /** The exponent the axis labels factor out: 0 on a logarithmic axis. */
  function AxisExponent(logFlag: bool, lo: real, hi: real, e: int): (x: int)
    requires IsDecade(Larger(lo, hi), e)
    ensures logFlag ==> x == 0
    ensures !logFlag ==> x % 3 == 0 && x <= e < x + 3
    ensures !logFlag && lo == 0.0 && hi == 0.0 ==> x == 0
  {
    if logFlag then 0 else EngExponent(e)
  }

  /** A grid line counts as the zero line when it sits within 1e-7 of the axis span from 0 on a linear axis. */
  const ZERO_THRESH: real := 0.0000001

  function GridRole(index: real, lo: real, hi: real, logFlag: bool): (style: int)
    ensures style == L_ZERO || style == L_GRID
    ensures style == L_ZERO <==> !logFlag && Abs(index) < ZERO_THRESH * (hi - lo)
  {
    if Abs(index) < ZERO_THRESH * (hi - lo) && !logFlag then L_ZERO else L_GRID
  }

  lemma DivMul(a: real, s: real)
    requires s != 0.0
    ensures (a / s) * s == a
  {
  }

  /** (k + 1)·s == k·s + s */
  lemma Distrib(k: int, s: real)
    ensures (k + 1) as real * s == k as real * s + s
  {
  }

  /** The multiple of s that floor(low / s) gives lies at or below low, the next one above it. */
  lemma FloorMultiple(low: real, s: real)
    requires s > 0.0
    ensures (low / s).Floor as real * s <= low < ((low / s).Floor + 1) as real * s
  {
    FloorBelow(low, s);
    FloorAbove(low, s);
  }

  lemma FloorBelow(low: real, s: real)
    requires s > 0.0
    ensures (low / s).Floor as real * s <= low
  {
  }

  lemma FloorAbove(low: real, s: real)
    requires s > 0.0
    ensures low < ((low / s).Floor + 1) as real * s
  {
    MulStrict(low / s, ((low / s).Floor + 1) as real, s);
  }

  /** The first grid value, one step past floor(low / s)·s, lies in (low, low + s]. */
  lemma FirstAbove(low: real, s: real, b: real, f: real)
    requires s > 0.0 && b == (low / s).Floor as real * s && f == b + s
    ensures low < f <= low + s
  {
    FloorMultiple(low, s);
    Distrib((low / s).Floor, s);
  }

  lemma BelowQuotient(x: real, a: real, s: real)
    requires s > 0.0 && x * s < a
    ensures x < a / s
  {
  }

  /** While the n-th multiple stays below opp, n is below the loop's bound. */
  lemma CountBelow(n: nat, first: real, opp: real, s: real, index: real)
    requires s > 0.0 && index == first + n as real * s && index < opp
    ensures opp > first && n < ((opp - first) / s).Floor + 1
  {
    BelowQuotient(n as real, opp - first, s);
  }

  lemma NextMultiple(n: nat, first: real, s: real, index: real)
    requires index == first + n as real * s
    ensures index + s == first + (n + 1) as real * s
  {
    Distrib(n, s);
  }

  /** The file-static grid state: gridBase, gridStep, gridJuke[101], gridNJuke, gridCurJuke. */
  class GridCursor {
    var base: real
    var step: real
    var juke: array<real>
    var nJuke: int
    var curJuke: int

    ghost predicate Valid()
      reads this
    {
      juke.Length == 101 && 0 <= nJuke <= 101 && -1 <= curJuke <= 100
    }

    /** The state of a linear axis: the table holds only 0 and the cursor is on it. */
    ghost predicate Linear()
      reads this, juke
    {
      Valid() && nJuke == 1 && juke[0] == 0.0 && curJuke == 0
    }

    /** Static storage starts zeroed. */
    constructor ()
      ensures Valid() && fresh(juke)
      ensures base == 0.0 && step == 0.0 && nJuke == 0 && curJuke == 0
      ensures forall i :: 0 <= i < 101 ==> juke[i] == 0.0
    {
      base, step, nJuke, curJuke := 0.0, 0.0, 0, 0;
      juke := new real[101](_ => 0.0);
    }

    /** step_grid: advance the table index, moving to the next period after the last entry. */
    method StepGrid() returns (r: real)
      requires Valid()
      modifies this
      ensures Valid() && juke == old(juke) && step == old(step) && nJuke == old(nJuke)
      ensures old(curJuke) + 1 >= nJuke ==> curJuke == 0 && base == old(base) + step
      ensures old(curJuke) + 1 < nJuke ==> curJuke == old(curJuke) + 1 && base == old(base)
      ensures 0 <= curJuke && r == base + juke[curJuke]
      ensures old(Linear()) ==> Linear() && r == old(base) + step
    {
      curJuke := curJuke + 1;
      if curJuke >= nJuke {
        curJuke := 0;
        base := base + step;
      }
      r := base + juke[curJuke];
    }

    /** ADD_GRID for every multiplier after the leading 1, whose logarithm 0.0 is already stored. */
    method FillJuke(m: seq<real>, log10: real -> real)
      requires Valid() && 1 <= |m| <= 101 && nJuke == 1 && juke[0] == 0.0
      modifies this, juke
      ensures Valid() && juke == old(juke) && nJuke == |m| && juke[0] == 0.0
      ensures base == old(base) && step == old(step) && curJuke == old(curJuke)
      ensures forall j :: 1 <= j < nJuke ==> juke[j] == log10(m[j])
    {
      var i := 1;
      while i < |m|
        invariant juke == old(juke) && Valid()
        invariant base == old(base) && step == old(step) && curJuke == old(curJuke)
        invariant 1 <= i <= |m| && nJuke == i
        invariant juke[0] == 0.0 && forall j :: 1 <= j < i ==> juke[j] == log10(m[j])
      {
        juke[nJuke] := log10(m[i]);
        nJuke := nJuke + 1;
        i := i + 1;
      }
    }

    /**
     * init_grid. A linear axis rounds the step up to a nice number and starts
     * from the multiple of it at or below low; a logarithmic axis starts from
     * the decade of low and walks the juke table. stepExp is the decade of
     * step, ratio is 10^step, log10 gives the logarithms the table stores and
     * start is where the in-decade search leaves the cursor.
     */
    method InitGrid(low: real, stepArg: real, logFlag: bool, stepExp: int,
                    ratio: real, log10: real -> real, start: int)
      returns (first: real, ghost mults: seq<real>)
      requires Valid()
      requires !logFlag ==> stepArg >= 0.0 && IsDecade(stepArg, stepExp)
      requires logFlag ==> -1 <= start <= 100
      modifies this, juke
      ensures Valid() && juke == old(juke)
      ensures !logFlag ==> Linear() && step == NiceStep(stepArg, stepExp)
      ensures !logFlag ==> base == (low / step).Floor as real * step + step && first == base
      ensures !logFlag ==> low < first <= low + step
      ensures logFlag ==> JukeShape(mults) && nJuke == |mults| && juke[0] == 0.0
      ensures logFlag ==> forall i :: 1 <= i < nJuke ==> juke[i] == log10(mults[i])
      ensures logFlag ==> step == -((-stepArg).Floor) as real
      ensures 0 <= curJuke && first == base + juke[curJuke]
    {
      nJuke, curJuke := 0, 0;
      juke[nJuke] := 0.0;
      nJuke := nJuke + 1;
      mults := [];
      if logFlag {
        base := low.Floor as real;
        step := -((-stepArg).Floor) as real;
        var m := LogJuke(ratio);
        mults := m;
        FillJuke(m, log10);
        if ratio <= 3.0 {
          curJuke := start;
        }
      } else {
        step := RoundUp(stepArg, stepExp);
        base := (low / step).Floor as real * step;
      }
      ghost var b := base;
      first := StepGrid();
      if !logFlag {
        FirstAbove(low, step, b, first);
      }
    }
  }

  /**
   * The values a label or grid-line loop visits on a linear axis: everything
   * step_grid produces from the initial value while it stays below the far
   * world bound.
   */
  method LinearGridValues(g: GridCursor, first: real, opp: real) returns (values: seq<real>)
    requires g.Linear() && g.step > 0.0 && first == g.base
    modifies g
    ensures g.Linear() && g.step == old(g.step) && g.juke == old(g.juke)
    ensures values == LinearGrid(first, g.step, opp)
  {
    var index := first;
    values := [];
    ghost var step := g.step;
    ghost var bound := if opp > first then ((opp - first) / step).Floor + 1 else 0;
    while index < opp
      invariant g.Linear() && g.step == step && g.juke == old(g.juke)
      invariant index == g.base && index == first + |values| as real * step
      invariant forall i :: 0 <= i < |values| ==> values[i] == first + i as real * step && values[i] < opp
      decreases bound - |values|
    {
      CountBelow(|values|, first, opp, step, index);
      NextMultiple(|values|, first, step, index);
      Progression(values, index, first, step, opp);
      values := values + [index];
      index := g.StepGrid();
    }
    LinearGridIsGrid(first, step, opp);
    GridUnique(values, LinearGrid(first, step, opp), first, step, opp);
  }

  /** round_up of a desired step, with the decade floor(nlog10) finds. */
  function GridStep(incr: real): (s: real)
    requires incr >= 0.0
    ensures s > 0.0 && s >= incr
  {
    var e := DecadeOf(incr);
    NiceStepPositive(incr, e);
    NiceStepAtLeast(incr, e);
    NiceStep(incr, e)
  }

  /** The first value init_grid returns on a linear axis: one step past floor(low / s)·s. */
  function FirstValue(low: real, s: real): (f: real)
    requires s > 0.0
    ensures low < f <= low + s
  {
    FirstAbove(low, s, (low / s).Floor as real * s, (low / s).Floor as real * s + s);
    (low / s).Floor as real * s + s
  }

  /** The values a linear grid loop visits from low while below opp, for the desired step incr. */
  function LinearAxis(low: real, incr: real, opp: real): seq<real>
    requires incr >= 0.0
  {
    LinearGrid(FirstValue(low, GridStep(incr)), GridStep(incr), opp)
  }

  /** The linear axis is the progression from the first value in steps of round_up(incr). */
  lemma LinearAxisIsGrid(low: real, incr: real, opp: real)
    requires incr >= 0.0
    ensures IsGrid(LinearAxis(low, incr, opp), FirstValue(low, GridStep(incr)), GridStep(incr), opp)
  {
    LinearGridIsGrid(FirstValue(low, GridStep(incr)), GridStep(incr), opp);
  }

  /**
   * A linear grid loop: init_grid on the cursor, then step_grid while the
   * value is below opp.
   */
  method LinearWalk(cursor: GridCursor, low: real, incr: real, opp: real) returns (values: seq<real>)
    requires cursor.Valid() && incr >= 0.0
    modifies cursor, cursor.juke
    ensures cursor.Valid() && cursor.juke == old(cursor.juke)
    ensures values == LinearAxis(low, incr, opp)
  {
    var e := DecadeOf(incr);
    var first;
    ghost var mults;
    first, mults := cursor.InitGrid(low, incr, false, e, 0.0, x => x, 0);
    ghost var s := GridStep(incr);
    assert cursor.step == s;
    assert first == FirstValue(low, s);
    values := LinearGridValues(cursor, first, opp);
    assert values == LinearGrid(FirstValue(low, s), s, opp);
  }

  /** values is the progression first, first + s, ... of everything below opp. */
  predicate IsGrid(values: seq<real>, first: real, s: real, opp: real) {
    (forall i :: 0 <= i < |values| ==> values[i] == first + i as real * s && values[i] < opp)
    && first + |values| as real * s >= opp
  }

  /** The number of grid values below opp: the least n with first + n·s >= opp. */
  function GridCount(first: real, s: real, opp: real): nat
    requires s > 0.0
  {
    if first < opp then -((-((opp - first) / s)).Floor) else 0
  }

  /** The linear grid from first in steps of s, cut off at opp. */
  function LinearGrid(first: real, s: real, opp: real): seq<real>
    requires s > 0.0
  {
    seq(GridCount(first, s, opp), i => first + i as real * s)
  }

  /** LinearGrid is the progression IsGrid describes. */
  lemma LinearGridIsGrid(first: real, s: real, opp: real)
    requires s > 0.0
    ensures IsGrid(LinearGrid(first, s, opp), first, s, opp)
  {
    var g := LinearGrid(first, s, opp);
    var n := GridCount(first, s, opp);
    if first < opp {
      var q := (opp - first) / s;
      assert q * s == opp - first;
      assert n as real >= q;
      MulMono(q, n as real, s);
      forall i | 0 <= i < n
        ensures g[i] < opp
      {
        assert (i as real) < q;
        MulStrict(i as real, q, s);
      }
    }
  }

  /** Only one sequence is the progression below opp: the grid is determined by first, s and opp. */
  lemma GridUnique(a: seq<real>, b: seq<real>, first: real, s: real, opp: real)
    requires s > 0.0 && IsGrid(a, first, s, opp) && IsGrid(b, first, s, opp)
    ensures a == b
  {
    GridNotLonger(a, b, first, s, opp);
    GridNotLonger(b, a, first, s, opp);
  }

  lemma GridNotLonger(a: seq<real>, b: seq<real>, first: real, s: real, opp: real)
    requires s > 0.0 && IsGrid(a, first, s, opp) && IsGrid(b, first, s, opp)
    ensures |b| <= |a|
  {
    if |b| > 0 {
      var n := |b| - 1;
      assert b[n] < opp;
      GridIndexBelow(a, n, first, s, opp);
    }
  }

  /** Every multiple below opp is a grid value. */
  lemma GridIndexBelow(a: seq<real>, n: nat, first: real, s: real, opp: real)
    requires s > 0.0 && IsGrid(a, first, s, opp) && first + n as real * s < opp
    ensures n < |a|
  {
    if n >= |a| {
      MulMono(|a| as real, n as real, s);
    }
  }

  /** The next term of the arithmetic progression below opp extends it. */
  lemma Progression(values: seq<real>, index: real, first: real, s: real, opp: real)
    requires forall i :: 0 <= i < |values| ==> values[i] == first + i as real * s && values[i] < opp
    requires index == first + |values| as real * s && index < opp
    ensures var v := values + [index];
      forall i :: 0 <= i < |v| ==> v[i] == first + i as real * s && v[i] < opp
  {
    var v := values + [index];
    forall i | 0 <= i < |v| ensures v[i] == first + i as real * s && v[i] < opp {
      if i < |values| {
        assert v[i] == values[i];
      }
    }
  }
}
