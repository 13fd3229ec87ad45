/**
 * Decimal rounding as the renderer uses it (`$math.round(value, precision)` with a
 * positive precision): scale by 10^precision, apply JavaScript's `Math.round`
 * (round half towards +infinity, i.e. floor(x + 1/2)) and scale back.
 */
module AmMath {

  function Pow10(decimals: nat): (p: nat)
    ensures p >= 1
  {
    if decimals == 0 then 1 else 10 * Pow10(decimals - 1)
  }

  function Abs(x: real): real {
    if x < 0.0 then -x else x
  }

  /** Half of the last kept decimal unit: the largest error rounding can make. */
  function HalfUnit(decimals: nat): (h: real)
    ensures h > 0.0
  {
    1.0 / (2.0 * Pow10(decimals) as real)
  }

  /** `Math.round(value * scale) / scale` for a positive scale. */
  function RoundAt(value: real, scale: real): real
    requires scale > 0.0
  {
    ((value * scale + 0.5).Floor as real) / scale
  }

  function Round(value: real, decimals: nat): real {
    RoundAt(value, Pow10(decimals) as real)
  }

  lemma DivideMonotone(x: real, y: real, scale: real)
    requires scale > 0.0 && x <= y
    ensures x / scale <= y / scale
  {
    assert y / scale - x / scale == (y - x) / scale;
  }

  lemma DivideStrict(x: real, y: real, scale: real)
    requires scale > 0.0 && x < y
    ensures x / scale < y / scale
  {
    assert y / scale - x / scale == (y - x) / scale;
  }

  lemma MultiplyMonotone(x: real, y: real, scale: real)
    requires scale >= 0.0 && x <= y
    ensures x * scale <= y * scale
  {
    assert y * scale - x * scale == (y - x) * scale;
  }

  /** The error bound at a positive scale: `RoundAt` lies in (value - 1/(2 scale), value + 1/(2 scale)]. */
  lemma RoundAtError(value: real, scale: real)
    requires scale > 0.0
    ensures value - 0.5 / scale < RoundAt(value, scale) <= value + 0.5 / scale
  {
    var k := (value * scale + 0.5).Floor as real;
    assert value * scale - 0.5 < k <= value * scale + 0.5;
    DivideMonotone(k, value * scale + 0.5, scale);
    DivideStrict(value * scale - 0.5, k, scale);
    assert (value * scale + 0.5) / scale == value + 0.5 / scale;
    assert (value * scale - 0.5) / scale == value - 0.5 / scale;
  }

  /** Rounding moves a value by at most half a unit of the last kept decimal (ties go up). */
  lemma RoundError(value: real, decimals: nat)
    ensures value - HalfUnit(decimals) < Round(value, decimals) <= value + HalfUnit(decimals)
    ensures Abs(Round(value, decimals) - value) <= HalfUnit(decimals)
  {
    var scale := Pow10(decimals) as real;
    RoundAtError(value, scale);
    assert HalfUnit(decimals) == 0.5 / scale;
  }

  lemma RoundAtMonotone(a: real, b: real, scale: real)
    requires scale > 0.0 && a <= b
    ensures RoundAt(a, scale) <= RoundAt(b, scale)
  {
    MultiplyMonotone(a, b, scale);
    var ka := (a * scale + 0.5).Floor;
    var kb := (b * scale + 0.5).Floor;
    assert ka <= kb;
    DivideMonotone(ka as real, kb as real, scale);
  }

  /** Rounding never reverses the order of two values. */
  lemma RoundMonotone(a: real, b: real, decimals: nat)
    requires a <= b
    ensures Round(a, decimals) <= Round(b, decimals)
  {
    RoundAtMonotone(a, b, Pow10(decimals) as real);
  }

  /** Multiplying both sides by a positive factor keeps a strict order, in both directions. */
  lemma ScaleOrder(factor: real, x: real, y: real)
    requires factor > 0.0
    ensures factor * x < factor * y <==> x < y
  {
    assert factor * y - factor * x == factor * (y - x);
    if x < y {
      assert factor * (y - x) > 0.0;
    } else {
      assert factor * (x - y) >= 0.0;
    }
  }

  /** An error of at most `bound`, divided by a non-zero length, is at most `bound / |length|`. */
  lemma DividedError(error: real, length: real, bound: real)
    requires length != 0.0 && Abs(error) <= bound
    ensures Abs(error / length) <= bound / Abs(length)
  {
    var q := error / length;
    assert q * length == error;
    assert Abs(q) * Abs(length) == Abs(error) by {
      if q < 0.0 && length < 0.0 {
        assert Abs(q) * Abs(length) == (-q) * (-length) == q * length;
      } else if q < 0.0 {
        assert Abs(q) * Abs(length) == (-q) * length == -(q * length);
      } else if length < 0.0 {
        assert Abs(q) * Abs(length) == q * (-length) == -(q * length);
      }
    }
    DivideMonotone(Abs(q) * Abs(length), bound, Abs(length));
    assert Abs(q) * Abs(length) / Abs(length) == Abs(q);
  }

  /** A non-negative quantity shrinks when divided by a larger positive length. */
  lemma DivideByLarger(amount: real, larger: real, smaller: real)
    requires amount >= 0.0 && larger >= smaller > 0.0
    ensures amount / larger <= amount / smaller
  {
    var q := amount / larger;
    assert q * larger == amount;
    assert q >= 0.0;
    MultiplyMonotone(smaller, larger, q);
    assert q * smaller <= amount;
    DivideMonotone(q * smaller, amount, smaller);
    assert q * smaller / smaller == q;
  }

  /** Multiplying by a non-zero factor and dividing by it gives the value back. */
  lemma CancelFactor(x: real, factor: real)
    requires factor != 0.0
    ensures x * factor / factor == x
  {
    var q := x * factor / factor;
    assert q * factor == x * factor;
    assert (q - x) * factor == 0.0;
  }

  /** Division distributes over a sum. */
  lemma DivideSum(a: real, b: real, divisor: real)
    requires divisor != 0.0
    ensures (a + b) / divisor == a / divisor + b / divisor
  {
    var qa, qb := a / divisor, b / divisor;
    assert qa * divisor == a && qb * divisor == b;
    assert (qa + qb) * divisor == a + b;
  }
}
