/**
 The decimal arithmetic the services rely on: a division carried out at 28 significant digits,
 then quantized. Quotients are ratios of integers; a quantized value is an integer number of steps.
 */
module Decimals {
  import opened Common

  const PRECISION_28: int := 1_000_000_000_000_000_000_000_000_000 // 10^27, the least 28-digit integer
  const MILLION: int := 1_000_000 // steps per unit of a rate, quantum 0.000001

  predicate IsPowerOfTen(s: int)
    decreases s
  {
    s == 1 || (s >= 10 && s % 10 == 0 && IsPowerOfTen(s / 10))
  }

  /**
   `m / scale` is the 28-digit quotient of `n / d`: `m` has 28 digits, `scale` is the power of ten that
   puts the decimal point (a quotient of 10^28 or more would need a negative power and is excluded by
   the bounds below), and `m` is a nearest integer to `n * scale / d` (which of two equally near ones
   does not matter here). The quotient of zero is zero, whatever its scale.
   */
  predicate IsQuotient28(n: int, d: int, m: int, scale: int) {
    && n >= 0 && d > 0
    && IsPowerOfTen(scale)
    && (if n == 0 then m == 0 else m >= PRECISION_28 && -d <= 2 * (m * d - n * scale) <= d)
  }

  /** `quantize(..., ROUND_HALF_UP)` of the exact ratio n/d to steps of 1/steps. */
  function HalfUp(n: int, d: int, steps: int): int
    requires n >= 0 && d > 0 && steps > 0
  {
    (2 * n * steps + d) / (2 * d)
  }

  /** `quantize` with the default rounding: to the nearest step, a tie to the even one. */
  function HalfEven(n: int, d: int, steps: int): int
    requires n >= 0 && d > 0 && steps > 0
  {
    var t := n * steps / d;
    var rest := 2 * (n * steps % d);
    if rest < d || (rest == d && t % 2 == 0) then t else t + 1
  }

  // ----- what the roundings mean ------------------------------------------------

  lemma DivBounds(a: int, b: int)
    requires b > 0
    ensures (a / b) * b <= a < (a / b + 1) * b
  {
  }

  lemma DivUnique(a: int, b: int, q: int)
    requires b > 0 && q * b <= a < (q + 1) * b
    ensures a / b == q
  {
    DivBounds(a, b);
    if q < a / b {
      MulMono(q + 1, a / b, b);
    } else if a / b < q {
      MulMono(a / b + 1, q, b);
    }
  }

  lemma MulMono(x: int, y: int, b: int)
    requires b >= 0 && x <= y
    ensures x * b <= y * b
  {
  }

  /** The half-up value, as a comparison of integers: linear in numerator and denominator. */
  lemma HalfUpAtLeast(n: int, d: int, steps: int, low: int)
    requires n >= 0 && d > 0 && steps > 0
    ensures HalfUp(n, d, steps) >= low <==> 2 * n * steps >= (2 * low - 1) * d
  {
    var q := HalfUp(n, d, steps);
    DivBounds(2 * n * steps + d, 2 * d);
    assert low * (2 * d) - d == (2 * low - 1) * d;
    if q >= low {
      MulMono(low, q, 2 * d);
    } else {
      MulMono(q + 1, low, 2 * d);
    }
  }

  /** The half-even value: the nearest step, and at a tie the even one. */
  lemma HalfEvenIs(n: int, d: int, steps: int, k: int)
    requires n >= 0 && d > 0 && steps > 0
    ensures var x := 2 * n * steps;
            HalfEven(n, d, steps) == k <==>
            (2 * k - 1) * d < x < (2 * k + 1) * d ||
            (k % 2 == 0 && (x == (2 * k - 1) * d || x == (2 * k + 1) * d))
  {
    var t := n * steps / d;
    var x := 2 * n * steps;
    var r := n * steps % d;
    assert x == 2 * (t * d) + 2 * r && 0 <= r < d by {
      assert n * steps == t * d + r;
      assert x == 2 * (n * steps);
    }
    NearestOf(t, r, d, k);
  }

  /** `HalfEvenIs` for the numerator `t * d + r`, with the products in `d` spelled out. */
  lemma NearestOf(t: int, r: int, d: int, k: int)
    requires 0 <= r < d
    ensures var x := 2 * (t * d) + 2 * r;
            (if 2 * r < d || (2 * r == d && t % 2 == 0) then t else t + 1) == k <==>
            (2 * k - 1) * d < x < (2 * k + 1) * d ||
            (k % 2 == 0 && (x == (2 * k - 1) * d || x == (2 * k + 1) * d))
  {
    assert (2 * t + 1) * d == 2 * (t * d) + d && (2 * t - 1) * d == 2 * (t * d) - d;
    assert (2 * t + 3) * d == 2 * (t * d) + 3 * d;
    if k < t {
      MulMono(2 * k + 1, 2 * t - 1, d);
      MulMono(2 * k - 1, 2 * t - 1, d);
    } else if k > t + 1 {
      MulMono(2 * t + 3, 2 * k - 1, d);
      MulMono(2 * t + 3, 2 * k + 1, d);
    }
  }

  // ----- dividing at 28 digits first changes nothing ----------------------------

  lemma {:induction false} PowerOfTenDivides(scale: int, p: int)
    requires IsPowerOfTen(scale) && IsPowerOfTen(p) && scale >= p
    ensures scale % p == 0
    decreases p
  {
    if p > 1 {
      PowerOfTenDivides(scale / 10, p / 10);
      var c := scale / 10 / (p / 10);
      assert scale / 10 == c * (p / 10);
      assert scale == c * p by {
        assert scale == 10 * (scale / 10) && p == 10 * (p / 10);
        assert 10 * (c * (p / 10)) == c * (10 * (p / 10));
      }
      MultipleMod(c, p);
    }
  }

  lemma MultipleMod(c: int, p: int)
    requires p > 0
    ensures (c * p) % p == 0
  {
    DivUnique(c * p, p, c);
    assert c * p == (c * p / p) * p + (c * p) % p;
  }

  /** The scale of a 28-digit quotient is finer than the steps it is quantized to. */
  lemma ScaleIsFine(n: int, d: int, m: int, scale: int, steps: int)
    requires n > 0 && IsQuotient28(n, d, m, scale) && 0 < steps && n * steps < PRECISION_28
    ensures scale > steps * d
  {
    // n * scale is within d / 2 of m * d >= 10^27 * d, while n * steps * d < 10^27 * d
    MulMono(n * steps, PRECISION_28 - 1, d);
    MulMono(PRECISION_28, m, d);
    assert (PRECISION_28 - 1) * d == PRECISION_28 * d - d;
    assert n * (steps * d) == (n * steps) * d;
    if scale <= steps * d {
      MulMono(scale, steps * d, n);
    }
  }

  /**
   The quotient lies on the same side of every half step as the exact ratio, and on it exactly when the
   exact ratio does.
   */
  lemma SameSide(n: int, d: int, m: int, scale: int, steps: int, b: int)
    requires n > 0 && IsQuotient28(n, d, m, scale) && n * steps < PRECISION_28
    requires steps > 0 && scale % (2 * steps) == 0
    ensures 2 * n * steps > b * d <==> 2 * m * steps > b * scale
    ensures 2 * n * steps < b * d <==> 2 * m * steps < b * scale
  {
    var x := 2 * n * steps - b * d;
    var y := 2 * m * steps - b * scale;
    ScaleIsFine(n, d, m, scale, steps);
    NearSides(n, d, m, scale, steps, b);
    if x >= 1 {
      MulMono(1, x, scale);
      assert y * d > 0;
      Sign(y, d);
    } else if x <= -1 {
      MulMono(x, -1, scale);
      assert y * d < 0;
      Sign(y, d);
    } else {
      TieIsExact(d, m, scale, steps, b, y);
    }
  }

  /** The two distances to a half step, brought to one denominator, differ by at most half of it. */
  lemma NearSides(n: int, d: int, m: int, scale: int, steps: int, b: int)
    requires steps > 0 && -d <= 2 * (m * d - n * scale) <= d
    ensures -(steps * d) <= (2 * m * steps - b * scale) * d - (2 * n * steps - b * d) * scale <= steps * d
  {
    var e := m * d - n * scale;
    Spread(m, steps, b, scale, d);
    Spread(n, steps, b, d, scale);
    TwiceTimes(steps, m * d, n * scale);
    assert scale * d == d * scale;
    MulMono(2 * e, d, steps);
    MulMono(-d, 2 * e, steps);
  }

  lemma Spread(m: int, steps: int, b: int, scale: int, d: int)
    ensures (2 * m * steps - b * scale) * d == 2 * (steps * (m * d)) - b * (scale * d)
  {
  }

  lemma TwiceTimes(steps: int, x: int, y: int)
    ensures 2 * (x - y) * steps == 2 * (steps * x) - 2 * (steps * y)
  {
  }

  lemma Sign(y: int, d: int)
    requires d > 0
    ensures y * d > 0 <==> y > 0
    ensures y * d < 0 <==> y < 0
  {
  }

  lemma TieIsExact(d: int, m: int, scale: int, steps: int, b: int, y: int)
    requires d > 0 && steps > 0 && scale % (2 * steps) == 0
    requires y == 2 * m * steps - b * scale && -(steps * d) <= y * d <= steps * d
    ensures y == 0
  {
    var c := scale / (2 * steps);
    assert scale == c * (2 * steps);
    assert y == (m - b * c) * (2 * steps) by {
      assert b * scale == (b * c) * (2 * steps);
    }
    assert -steps <= y <= steps by {
      if y > steps { MulMono(steps + 1, y, d); }
      if y < -steps { MulMono(y, -steps - 1, d); }
    }
    if m - b * c >= 1 { MulMono(1, m - b * c, 2 * steps); }
    if m - b * c <= -1 { MulMono(m - b * c, -1, 2 * steps); }
  }

  /** Any power of ten finer than `steps` is divisible by two of its steps. */
  lemma TwoSteps(scale: int, steps: int)
    requires IsPowerOfTen(scale) && IsPowerOfTen(steps) && scale > steps
    ensures scale % (2 * steps) == 0
  {
    PowerOfTenGap(scale, steps);
    TimesTen(steps);
    PowerOfTenDivides(scale, 10 * steps);
    TenIsFiveTwos(scale, steps);
  }

  lemma TenIsFiveTwos(scale: int, s: int)
    requires s > 0 && scale % (10 * s) == 0
    ensures scale % (2 * s) == 0
  {
    var e := scale / (10 * s);
    assert scale == e * (10 * s) + scale % (10 * s);
    FiveTwos(e, s);
    MultipleMod(5 * e, 2 * s);
  }

  lemma FiveTwos(e: int, s: int)
    ensures e * (10 * s) == (5 * e) * (2 * s)
  {
  }

  lemma TimesTen(s: int)
    requires IsPowerOfTen(s)
    ensures s >= 1 && IsPowerOfTen(10 * s)
  {
    assert 10 * s / 10 == s;
  }

  lemma {:induction false} PowerOfTenGap(scale: int, steps: int)
    requires IsPowerOfTen(scale) && IsPowerOfTen(steps) && scale > steps
    ensures scale >= 10 * steps
    decreases steps
  {
    if steps > 1 {
      PowerOfTenGap(scale / 10, steps / 10);
    }
  }

  /**
   No double rounding: while numerator times steps stays below 10^27, dividing at 28 digits and then
   quantizing is one exact rounding of the ratio, half-up or half-even.
   */
  lemma QuantizedQuotientIsExact(n: int, d: int, m: int, scale: int, steps: int)
    requires IsQuotient28(n, d, m, scale) && IsPowerOfTen(steps) && n * steps < PRECISION_28
    ensures HalfUp(m, scale, steps) == HalfUp(n, d, steps)
    ensures HalfEven(m, scale, steps) == HalfEven(n, d, steps)
  {
    PowerPositive(steps);
    if n == 0 {
      PowerPositive(scale);
      ZeroRounds(d, steps);
      ZeroRounds(scale, steps);
    } else {
      PositiveQuotientIsExact(n, d, m, scale, steps);
    }
  }

  lemma ZeroRounds(d: int, steps: int)
    requires d > 0 && steps > 0
    ensures HalfUp(0, d, steps) == 0 && HalfEven(0, d, steps) == 0
  {
  }

  lemma PositiveQuotientIsExact(n: int, d: int, m: int, scale: int, steps: int)
    requires n > 0 && IsQuotient28(n, d, m, scale) && IsPowerOfTen(steps) && steps > 0 && n * steps < PRECISION_28
    ensures scale > 0
    ensures HalfUp(m, scale, steps) == HalfUp(n, d, steps)
    ensures HalfEven(m, scale, steps) == HalfEven(n, d, steps)
  {
    PowerPositive(scale);
    ScaleIsFine(n, d, m, scale, steps);
    MulMono(1, d, steps);
    TwoSteps(scale, steps);
    var up := HalfUp(n, d, steps);
    SameSide(n, d, m, scale, steps, 2 * up - 1);
    SameSide(n, d, m, scale, steps, 2 * up + 1);
    HalfUpAtLeast(n, d, steps, up);
    HalfUpAtLeast(n, d, steps, up + 1);
    HalfUpAtLeast(m, scale, steps, up);
    HalfUpAtLeast(m, scale, steps, up + 1);
    var even := HalfEven(n, d, steps);
    SameSide(n, d, m, scale, steps, 2 * even - 1);
    SameSide(n, d, m, scale, steps, 2 * even + 1);
    HalfEvenIs(n, d, steps, even);
    HalfEvenIs(m, scale, steps, even);
  }

  lemma {:induction false} PowersMultiply(a: int, b: int)
    requires IsPowerOfTen(a) && IsPowerOfTen(b)
    ensures IsPowerOfTen(a * b)
    decreases b
  {
    if b > 1 {
      var c := b / 10;
      PowersMultiply(a, c);
      TimesTen(a * c);
      TenOut(a, b, c);
    }
  }

  lemma TenOut(a: int, b: int, c: int)
    requires b == 10 * c
    ensures a * b == 10 * (a * c)
  {
  }

  lemma {:induction false} PowerPositive(s: int)
    requires IsPowerOfTen(s)
    ensures s >= 1
  {
  }
}
