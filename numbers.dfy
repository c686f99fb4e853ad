/**
 * The floating-point values that the record builder stores, as far as the
 * builder's own logic can tell them apart: a finite value (modelled exactly
 * as a real), NaN, or an infinity. The model keeps the decisions that depend
 * on the difference (comparisons, division by zero, rounding) and nothing of
 * binary representation.
 */
module Numbers {

  datatype Float = Finite(value: real) | NaN | Infinity(positive: bool)

  /** IEEE `x < f` for a finite `x`: false against NaN. */
  predicate Less(x: real, f: Float)
  {
    match f
    case Finite(v) => x < v
    case NaN => false
    case Infinity(positive) => positive
  }

  /** IEEE `x > f` for a finite `x`: false against NaN. */
  predicate Greater(x: real, f: Float)
  {
    match f
    case Finite(v) => x > v
    case NaN => false
    case Infinity(positive) => !positive
  }

  /** `x` is a whole number of hundredths. */
  predicate IsCents(x: real)
  {
    (x * 100.0).Floor as real == x * 100.0
  }

  /** Python's rounding of `y` to an integer: to the nearest, ties to the even neighbour. */
  function RoundHalfEven(y: real): (n: int)
    ensures n as real - y <= 0.5 && y - n as real <= 0.5
    ensures (n as real - y == 0.5 || y - n as real == 0.5) ==> n % 2 == 0
  {
    var k := y.Floor;
    var frac := y - k as real;
    if frac < 0.5 then k
    else if frac > 0.5 then k + 1
    else if k % 2 == 0 then k
    else k + 1
  }

  /** The nearest-with-ties-to-even integer is the only one within one half of `y`. */
  lemma RoundHalfEvenUnique(y: real, n: int)
    requires n as real - y <= 0.5 && y - n as real <= 0.5
    requires (n as real - y == 0.5 || y - n as real == 0.5) ==> n % 2 == 0
    ensures n == RoundHalfEven(y)
  {
  }

  /** `round(x, 2)` on a finite value. */
  function Round2(x: real): (r: real)
    ensures IsCents(r)
    ensures r - x <= 0.005 && x - r <= 0.005
    ensures x * 100.0 - (x * 100.0).Floor as real == 0.5 ==> (r * 100.0).Floor % 2 == 0
  {
    var y := x * 100.0;
    var n := RoundHalfEven(y);
    var r := n as real / 100.0;
    assert r * 100.0 == n as real;
    assert (r * 100.0).Floor == n;
    assert r - x == (n as real - y) / 100.0;
    assert x - r == (y - n as real) / 100.0;
    r
  }

  /** Rounding a value that is already a whole number of hundredths leaves it unchanged. */
  lemma Round2OfCents(x: real)
    requires IsCents(x)
    ensures Round2(x) == x
  {
  }

  /** `round(f, 2)` on a NumPy float: NaN and the infinities are returned as they are. */
  function RoundFloat(f: Float): (r: Float)
    ensures r.Finite? <==> f.Finite?
    ensures f.Finite? ==> r == Finite(Round2(f.value))
    ensures r.Finite? ==> IsCents(r.value) && r.value - f.value <= 0.005 && f.value - r.value <= 0.005
    ensures !f.Finite? ==> r == f
  {
    match f
    case Finite(v) => Finite(Round2(v))
    case _ => f
  }
}
