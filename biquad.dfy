/** The two-pole lowpass used twice by the Mackity stage: its coefficient
    designer (tangent bilinear transform) and its direct-form-I step. */
module Biquad {
  import opened Numerics

  /** Slots 0-6 of a `mack_biquad` array: corner as a fraction of the
      sample rate, resonance Q, then b0, b1, b2, a1, a2. */
  datatype Slots = Slots(freq: real, reso: real, b0: real, b1: real, b2: real, a1: real, a2: real)

  /** The DF1 history of one channel: last two inputs and last two outputs
      (slots 7-10 for the left channel, 11-14 for the right). */
  datatype History = History(x1: real, x2: real, y1: real, y2: real)

  /** One filter step: the output sample and the shifted history. */
  datatype Tick = Tick(y: real, hist: History)

  /** `1 + K/Q + K*K`, whose reciprocal normalises the coefficients. */
  function NormDenominator(k: real, reso: real): real
    requires reso != 0.0
  {
    1.0 + k / reso + k * k
  }

  /** The double code divides by NormDenominator; over the reals the
      design is defined when that is not zero. */
  predicate Designable(freq: real, reso: real, tan: real -> real) {
    reso != 0.0 && NormDenominator(tan(Pi * freq), reso) != 0.0
  }

  /** The lowpass design of the coefficient block. Its numerator is
      K^2 (1 + 2z^-1 + z^-2) scaled by the normaliser: b1 = 2 b0 and
      b2 = b0, the gain at DC is exactly 1 (b0+b1+b2 = 1+a1+a2) and the
      response has a zero at Nyquist (b0-b1+b2 = 0). */
  function Design(freq: real, reso: real, tan: real -> real): (q: Slots)
    requires Designable(freq, reso, tan)
    ensures q.freq == freq && q.reso == reso
    ensures q.b1 == 2.0 * q.b0 && q.b2 == q.b0
    ensures q.b0 + q.b1 + q.b2 == 1.0 + q.a1 + q.a2
    ensures q.b0 - q.b1 + q.b2 == 0.0
  {
    var k := tan(Pi * freq);
    var d := NormDenominator(k, reso);
    var norm := 1.0 / d;
    var b0 := k * k * norm;
    var a1 := 2.0 * (k * k - 1.0) * norm;
    var a2 := (1.0 - k / reso + k * k) * norm;
    assert d * norm == 1.0;
    assert 1.0 + a1 + a2 == (d + 2.0 * (k * k - 1.0) + (1.0 - k / reso + k * k)) * norm;
    Slots(freq, reso, b0, 2.0 * b0, b0, a1, a2)
  }

  /** One direct-form-I step. The history moves up by one: the input
      becomes x1 and the old x1 becomes x2; the output becomes y1 and the
      old y1 becomes y2. */
  function Step(q: Slots, h: History, x: real): (r: Tick)
    ensures r.hist.x1 == x && r.hist.x2 == h.x1
    ensures r.hist.y1 == r.y && r.hist.y2 == h.y1
  {
    var y := q.b0 * x + q.b1 * h.x1 + q.b2 * h.x2 - q.a1 * h.y1 - q.a2 * h.y2;
    Tick(y, History(x, h.x1, y, h.y1))
  }

  /** A filter with unity DC gain that has settled on a constant v passes
      v through unchanged and stays settled. */
  lemma SettledPassesDc(q: Slots, v: real)
    requires q.b0 + q.b1 + q.b2 == 1.0 + q.a1 + q.a2
    ensures Step(q, History(v, v, v, v), v) == Tick(v, History(v, v, v, v))
  {
    var y := Step(q, History(v, v, v, v), v).y;
    assert y == (q.b0 + q.b1 + q.b2 - q.a1 - q.a2) * v;
  }

  /** The designed lowpass, settled on a constant, passes it unchanged. */
  lemma DesignedPassesDc(freq: real, reso: real, tan: real -> real, v: real)
    requires Designable(freq, reso, tan)
    ensures Step(Design(freq, reso, tan), History(v, v, v, v), v) == Tick(v, History(v, v, v, v))
  {
    SettledPassesDc(Design(freq, reso, tan), v);
  }
}
