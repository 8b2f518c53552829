/** Scalar building blocks shared by both engines: clamps, gains, the
    dry/wet crossfade, the one-pole smoother and its denormal flush.
    Doubles are modelled as reals; the math library calls the DSP makes
    (tan, sin, sqrt, the frexpf exponent and pow(2, .)) are parameters.
    Three facts about them are assumed, each as a precondition of the
    members that need it: the two in LibmFacts, and the non-zero lowpass
    normaliser that Chain.Derivable demands of tan. */
module Numerics {

  /** Magnitude below which a one-pole memory is flushed to exactly 0. */
  const MemoryFlushThreshold: real := 1.18e-37

  /** juce::MathConstants<double>::pi, as the double literal. */
  const Pi: real := 3.141592653589793

  /** The math-library functions the DSP calls, left uninterpreted. */
  datatype Libm = Libm(
    tan: real -> real,
    sin: real -> real,
    sqrt: real -> real,
    frexpExp: real -> int,   // the exponent frexpf stores, taken of the unrounded sample
    pow2: int -> real)       // pow(2, e)

  ghost predicate SinBounded(sin: real -> real) {
    forall x :: -1.0 <= sin(x) <= 1.0
  }

  ghost predicate SqrtNonNegative(sqrt: real -> real) {
    forall x :: 0.0 <= x ==> 0.0 <= sqrt(x)
  }

  /** The facts assumed about sin and sqrt. */
  ghost predicate LibmFacts(lib: Libm) {
    SinBounded(lib.sin) && SqrtNonNegative(lib.sqrt)
  }

  function Abs(x: real): (r: real)
    ensures r >= 0.0
    ensures r == x || r == -x
  {
    if x < 0.0 then -x else x
  }

  /** The pair of ifs `if (x > 1.0) x = 1.0; if (x < -1.0) x = -1.0;`. */
  function Clamp(x: real): (r: real)
    ensures -1.0 <= r <= 1.0
    ensures -1.0 <= x <= 1.0 ==> r == x
    ensures x > 1.0 ==> r == 1.0
    ensures x < -1.0 ==> r == -1.0
  {
    var hi := if x > 1.0 then 1.0 else x;
    if hi < -1.0 then -1.0 else hi
  }

  /** A gain stage skipped when the gain is exactly 1. */
  function Gain(s: real, g: real): (r: real)
    ensures g == 1.0 ==> r == s
  {
    if g != 1.0 then s * g else s
  }

  /** Skipping the multiply at unity gain never changes the result. */
  lemma GainIsProduct(s: real, g: real)
    ensures Gain(s, g) == s * g
  {
  }

  /** The dry/wet step `if (wet != 1.0) s = s*wet + dry*(1-wet)`. The skip
      at wet == 1 agrees with the crossfade, which gives the dry sample at
      wet == 0. */
  function Mix(s: real, dry: real, wet: real): (r: real)
    ensures wet == 1.0 ==> r == s
    ensures wet == 0.0 ==> r == dry
  {
    if wet != 1.0 then s * wet + dry * (1.0 - wet) else s
  }

  /** The crossfade moves the dry sample towards the wet one by the
      fraction wet, the skipped case included. */
  lemma MixDistance(s: real, dry: real, wet: real)
    ensures Mix(s, dry, wet) - dry == (s - dry) * wet
  {
  }

  /** `if (fabs(m) < 1.18e-37) m = 0.0;` */
  function Flush(m: real): (r: real)
    ensures Abs(m) < MemoryFlushThreshold ==> r == 0.0
    ensures Abs(m) >= MemoryFlushThreshold ==> r == m
    ensures Abs(r) <= Abs(m)
  {
    if Abs(m) < MemoryFlushThreshold then 0.0 else m
  }

  /** One exponential smoothing step `m*(1-a) + x*a`: a coefficient of 0
      keeps the memory, one of 1 takes the input. */
  function OnePole(m: real, x: real, a: real): (r: real)
    ensures a == 0.0 ==> r == m
    ensures a == 1.0 ==> r == x
  {
    m * (1.0 - a) + x * a
  }

  /** The distance of the new memory to the input is the old distance
      scaled by 1-a. */
  lemma OnePoleDistance(m: real, x: real, a: real)
    ensures OnePole(m, x, a) - x == (m - x) * (1.0 - a)
  {
  }

  /** A product of two non-negative reals is non-negative. */
  lemma MulNonNeg(a: real, b: real)
    requires a >= 0.0 && b >= 0.0
    ensures a * b >= 0.0
  {
  }

  /** Scaling by a factor in [0, 1] never increases a magnitude. */
  lemma ScaleShrinks(x: real, m: real)
    requires 0.0 <= m <= 1.0
    ensures Abs(x * m) <= Abs(x)
    ensures x >= 0.0 ==> x * m >= 0.0
    ensures x <= 0.0 ==> x * m <= 0.0
  {
    var y := Abs(x);
    MulNonNeg(y, m);
    MulNonNeg(y, 1.0 - m);
    assert y * (1.0 - m) == y - y * m;
    if x >= 0.0 {
      assert x * m == y * m;
    } else {
      assert x * m == -(y * m);
    }
  }

  /** A product of two numbers in [0, 1] lies between 0 and the first. */
  lemma UnitProduct(a: real, b: real)
    requires 0.0 <= a <= 1.0 && 0.0 <= b <= 1.0
    ensures 0.0 <= a * b <= a
  {
    MulNonNeg(a, b);
    MulNonNeg(a, 1.0 - b);
    assert a - a * b == a * (1.0 - b);
  }

  lemma SquareNonNeg(x: real)
    ensures x * x >= 0.0
  {
    if x < 0.0 {
      assert x * x == (-x) * (-x);
      MulNonNeg(-x, -x);
    } else {
      MulNonNeg(x, x);
    }
  }

  /** The magnitude of a product is the product of the magnitudes. */
  lemma AbsMul(a: real, b: real)
    ensures Abs(a * b) == Abs(a) * Abs(b)
  {
    if a < 0.0 {
      assert a * b == -((-a) * b);
      if b < 0.0 {
        assert a * b == (-a) * (-b);
        MulNonNeg(-a, -b);
      } else {
        MulNonNeg(-a, b);
      }
    } else if b < 0.0 {
      assert a * b == -(a * (-b));
      MulNonNeg(a, -b);
    } else {
      MulNonNeg(a, b);
    }
  }

  /** For a weight in [0, 1] the crossfade lies between the wet and the dry
      sample. */
  lemma MixBetween(s: real, dry: real, wet: real)
    requires 0.0 <= wet <= 1.0
    ensures s <= dry ==> s <= Mix(s, dry, wet) <= dry
    ensures dry <= s ==> dry <= Mix(s, dry, wet) <= s
  {
    MixDistance(s, dry, wet);
    ScaleShrinks(s - dry, wet);
  }

  /** For a coefficient in [0, 1] the new one-pole memory lies between the
      old memory and the input. */
  lemma OnePoleBetween(m: real, x: real, a: real)
    requires 0.0 <= a <= 1.0
    ensures m <= x ==> m <= OnePole(m, x, a) <= x
    ensures x <= m ==> x <= OnePole(m, x, a) <= m
  {
    OnePoleDistance(m, x, a);
    ScaleShrinks(m - x, 1.0 - a);
  }
}
