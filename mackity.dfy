/** The Mackity channel strip, one channel at a time: subsonic highpass,
    input trim, lowpass A, quintic clip, lowpass B, DC-block highpass,
    output pad and dry/wet. */
module Mackity {
  import opened Numerics
  import opened Biquad

  /** The block-rate values the Mackity stage reads. */
  datatype MackCoeffs = MackCoeffs(
    inTrim: real,        // (mackInTrimParam * 10)^2
    outPad: real,
    wet: real,
    iirAmountA: real,    // subsonic one-pole coefficient
    iirAmountB: real,    // DC-block one-pole coefficient
    biquadA: Slots,
    biquadB: Slots)

  /** The memories of one channel: the two one-pole filters and the
      histories of the two lowpasses. */
  datatype MackLane = MackLane(iirA: real, iirB: real, histA: History, histB: History)

  /** The result of one sample: output, new memories, and the samples the
      trim and pad meters square. */
  datatype MackOut = MackOut(out: real, lane: MackLane, trimTap: real, padTap: real)

  const ClipCoefficient: real := 0.1768

  /** pow(x, 5) over the reals. */
  function Pow5(x: real): real {
    x * x * x * x * x
  }

  lemma SquareUnit(c: real)
    requires -1.0 <= c <= 1.0
    ensures 0.0 <= c * c <= 1.0
  {
    ScaleShrinks(Abs(c), Abs(c));
    assert c * c == Abs(c) * Abs(c);
  }

  /** Clamp to [-1, 1], then `x - 0.1768 x^5`. The curve only compresses:
      the result keeps the sign of the clamped sample and is no larger in
      magnitude, so it lies in [-1, 1]. */
  function SoftClip(x: real): (r: real)
    ensures Abs(r) <= Abs(Clamp(x)) <= 1.0
    ensures Clamp(x) >= 0.0 ==> r >= 0.0
    ensures Clamp(x) <= 0.0 ==> r <= 0.0
  {
    var c := Clamp(x);
    ClipShrinks(c);
    c - Pow5(c) * ClipCoefficient
  }

  /** On [-1, 1] the quintic clip only compresses and keeps the sign. */
  lemma ClipShrinks(c: real)
    requires -1.0 <= c <= 1.0
    ensures Abs(c - Pow5(c) * ClipCoefficient) <= Abs(c)
    ensures c >= 0.0 ==> c - Pow5(c) * ClipCoefficient >= 0.0
    ensures c <= 0.0 ==> c - Pow5(c) * ClipCoefficient <= 0.0
  {
    SquareUnit(c);
    var s := c * c;
    UnitProduct(s, s);
    var f := s * s;
    UnitProduct(ClipCoefficient, f);
    var m := 1.0 - ClipCoefficient * f;
    ScaleShrinks(c, m);
    assert Pow5(c) == c * f;
    assert c - Pow5(c) * ClipCoefficient == c * m;
  }

  /** One sample of one channel through the whole strip. */
  function MackityStep(k: MackCoeffs, st: MackLane, s: real): (r: MackOut)
    // subsonic highpass: the memory is flushed first when it is tiny
    ensures Abs(st.iirA) < MemoryFlushThreshold ==> r.lane.iirA == s * k.iirAmountA
    ensures Abs(st.iirA) >= MemoryFlushThreshold ==> r.lane.iirA == OnePole(st.iirA, s, k.iirAmountA)
    // trim acts on the highpassed sample, which lowpass A then takes in
    ensures r.trimTap == Gain(s - r.lane.iirA, k.inTrim)
    ensures r.lane.histA.x1 == r.trimTap && r.lane.histA.x2 == st.histA.x1
    ensures r.lane.histA.y2 == st.histA.y1
    // lowpass A is the direct-form-I step with the slots of array A
    ensures r.lane.histA == Step(k.biquadA, st.histA, r.trimTap).hist
    // lowpass B takes in the clipped output of lowpass A, which is in [-1, 1]
    ensures r.lane.histB.x1 == SoftClip(r.lane.histA.y1) && Abs(r.lane.histB.x1) <= 1.0
    ensures r.lane.histB.x2 == st.histB.x1 && r.lane.histB.y2 == st.histB.y1
    // lowpass B is the direct-form-I step with the slots of array B
    ensures r.lane.histB == Step(k.biquadB, st.histB, r.lane.histB.x1).hist
    // DC block on the output of lowpass B, then the pad
    ensures Abs(st.iirB) < MemoryFlushThreshold ==> r.lane.iirB == r.lane.histB.y1 * k.iirAmountB
    ensures Abs(st.iirB) >= MemoryFlushThreshold ==> r.lane.iirB == OnePole(st.iirB, r.lane.histB.y1, k.iirAmountB)
    ensures r.padTap == Gain(r.lane.histB.y1 - r.lane.iirB, k.outPad)
    // dry/wet against the sample that entered the stage
    ensures r.out == Mix(r.padTap, s, k.wet)
    ensures k.wet == 1.0 ==> r.out == r.padTap
    ensures k.wet == 0.0 ==> r.out == s
  {
    var dry := s;
    var iirA := OnePole(Flush(st.iirA), s, k.iirAmountA);
    var trimmed := Gain(s - iirA, k.inTrim);
    var a := Step(k.biquadA, st.histA, trimmed);
    var clipped := SoftClip(a.y);
    var b := Step(k.biquadB, st.histB, clipped);
    var iirB := OnePole(Flush(st.iirB), b.y, k.iirAmountB);
    var padded := Gain(b.y - iirB, k.outPad);
    MackOut(Mix(padded, dry, k.wet), MackLane(iirA, iirB, a.hist, b.hist), trimmed, padded)
  }

  /** The trim and the pad scale the highpassed samples. */
  lemma MackityStepScaling(k: MackCoeffs, st: MackLane, s: real)
    ensures var r := MackityStep(k, st, s);
      && r.trimTap == (s - r.lane.iirA) * k.inTrim
      && r.padTap == (r.lane.histB.y1 - r.lane.iirB) * k.outPad
  {
    var r := MackityStep(k, st, s);
    GainIsProduct(s - r.lane.iirA, k.inTrim);
    GainIsProduct(r.lane.histB.y1 - r.lane.iirB, k.outPad);
  }

  /** The output is the dry sample moved towards the padded one by the
      fraction wet. */
  lemma MackityStepCrossfade(k: MackCoeffs, st: MackLane, s: real)
    ensures var r := MackityStep(k, st, s); r.out - s == (r.padTap - s) * k.wet
  {
    var r := MackityStep(k, st, s);
    MixDistance(r.padTap, s, k.wet);
  }
}
