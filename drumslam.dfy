/** The DrumSlam stage, one channel at a time: drive, a three-band split
    whose two cascade sets alternate from sample to sample, per-band
    saturation (the mid band with a skew term that depends on its rate of
    change), recombination, output gain and dry/wet. */
module DrumSlam {
  import opened Numerics

  /** The block-rate values the DrumSlam stage reads. */
  datatype DrumCoeffs = DrumCoeffs(
    iirAmountL: real,   // low-band smoothing coefficient
    iirAmountH: real,   // high-band smoothing coefficient
    drive: real,        // 1 + 3 drumDriveParam
    out: real,
    wet: real)

  /** The memories of one channel. The low-band cascades are (a, b) and
      (c, d), the high-band ones (e, f) and (g, h); pairs (a, b, e, f) and
      (c, d, g, h) take turns. `last` is the previous driven mid sample. */
  datatype DrumLane = DrumLane(a: real, b: real, c: real, d: real, e: real, f: real, g: real, h: real, last: real)

  /** The three bands and the updated cascade memories. */
  datatype Bands = Bands(low: real, mid: real, high: real, lane: DrumLane)

  /** The result of one sample: output, new memories, and the samples the
      drive and output meters square. */
  datatype DrumOut = DrumOut(out: real, lane: DrumLane, driveTap: real, outTap: real)

  const LowKnee: real := 0.448
  const HighKnee: real := 0.599
  /** The literal the source uses for pi in the skew term. */
  const SkewPi: real := 3.1415926
  /** The literal the source uses for pi/2 as the sine's upper bound. */
  const HalfPi: real := 1.57079633
  const SkewScale: real := 1.557079633

  /** The band split on a driven sample. On a true flip only cascades
      (a, b) and (e, f) advance, on a false flip only (c, d) and (g, h);
      low is the second low-cascade memory, mid the high-cascade output
      minus it, high the sample minus the high-cascade output, so that the
      three bands add back up to the sample exactly. */
  function Split(k: DrumCoeffs, st: DrumLane, flip: bool, s: real): (r: Bands)
    ensures r.low + r.mid + r.high == s
    ensures r.lane.last == st.last
    ensures flip ==> r.lane.c == st.c && r.lane.d == st.d && r.lane.g == st.g && r.lane.h == st.h
    ensures !flip ==> r.lane.a == st.a && r.lane.b == st.b && r.lane.e == st.e && r.lane.f == st.f
    ensures flip ==> r.low == r.lane.b && r.mid == r.lane.f - r.lane.b && r.high == s - r.lane.f
    ensures !flip ==> r.low == r.lane.d && r.mid == r.lane.h - r.lane.d && r.high == s - r.lane.h
    ensures flip ==> r.lane.a == OnePole(st.a, s, k.iirAmountL) && r.lane.b == OnePole(st.b, r.lane.a, k.iirAmountL)
    ensures flip ==> r.lane.e == OnePole(st.e, s, k.iirAmountH) && r.lane.f == OnePole(st.f, r.lane.e, k.iirAmountH)
    ensures !flip ==> r.lane.c == OnePole(st.c, s, k.iirAmountL) && r.lane.d == OnePole(st.d, r.lane.c, k.iirAmountL)
    ensures !flip ==> r.lane.g == OnePole(st.g, s, k.iirAmountH) && r.lane.h == OnePole(st.h, r.lane.g, k.iirAmountH)
  {
    if flip then
      var a := OnePole(st.a, s, k.iirAmountL);
      var b := OnePole(st.b, a, k.iirAmountL);
      var e := OnePole(st.e, s, k.iirAmountH);
      var f := OnePole(st.f, e, k.iirAmountH);
      Bands(b, f - b, s - f, st.(a := a, b := b, e := e, f := f))
    else
      var c := OnePole(st.c, s, k.iirAmountL);
      var d := OnePole(st.d, c, k.iirAmountL);
      var g := OnePole(st.g, s, k.iirAmountH);
      var h := OnePole(st.h, g, k.iirAmountH);
      Bands(d, h - d, s - h, st.(c := c, d := d, g := g, h := h))
  }

  /** Clamp to [-1, 1], then `x - x (|x| w)^2`. For a knee w in [0, 1] the
      curve only compresses: same sign as the clamped sample, no larger in
      magnitude, so it lies in [-1, 1]. It is odd. */
  function Saturate(x: real, w: real): (r: real)
    requires 0.0 <= w <= 1.0
    ensures Abs(r) <= Abs(Clamp(x)) <= 1.0
    ensures Clamp(x) >= 0.0 ==> r >= 0.0
    ensures Clamp(x) <= 0.0 ==> r <= 0.0
  {
    var c := Clamp(x);
    var a := Abs(c);
    assert 0.0 <= a <= 1.0;
    var q := a * w;
    UnitProduct(a, w);
    UnitProduct(q, q);
    assert c * q * q == c * (q * q);
    ScaleShrinks(c, 1.0 - q * q);
    assert c - c * q * q == c * (1.0 - q * q);
    c - c * q * q
  }

  function LowShape(x: real): (r: real)
    ensures Abs(r) <= Abs(Clamp(x)) <= 1.0
  {
    Saturate(x, LowKnee)
  }

  function HighShape(x: real): (r: real)
    ensures Abs(r) <= Abs(Clamp(x)) <= 1.0
  {
    Saturate(x, HighKnee)
  }

  /** The skew term: the rate of change `mid - last`, its magnitude capped
      at SkewPi and put through sin, given the sign of the change (>0) and
      scaled by SkewPi, the mid sample and SkewScale. A silent mid sample
      has no skew, and with sin bounded the skew is at most
      SkewPi * SkewScale times the mid magnitude. */
  function Skew(mid: real, last: real, sin: real -> real): (r: real)
    ensures mid == 0.0 ==> r == 0.0
    ensures SinBounded(sin) ==> Abs(r) <= SkewPi * SkewScale * Abs(mid)
  {
    var change := mid - last;
    var capped := if Abs(change) > SkewPi then SkewPi else Abs(change);
    var bent := sin(capped);
    var signed := if change > 0.0 then bent * SkewPi else -bent * SkewPi;
    assert SinBounded(sin) ==> Abs(signed * mid * SkewScale) <= SkewPi * SkewScale * Abs(mid) by {
      if SinBounded(sin) {
        SignedBound(bent, change > 0.0);
        SkewBound(signed, mid);
      }
    }
    signed * mid * SkewScale
  }

  /** A bounded sine value times SkewPi, with either sign, is at most
      SkewPi in magnitude. */
  lemma SignedBound(bent: real, positive: bool)
    requires -1.0 <= bent <= 1.0
    ensures Abs(if positive then bent * SkewPi else -bent * SkewPi) <= SkewPi
  {
    AbsMul(bent, SkewPi);
    AbsMul(-bent, SkewPi);
    ScaleShrinks(SkewPi, Abs(bent));
  }

  lemma SkewBound(signed: real, mid: real)
    requires Abs(signed) <= SkewPi
    ensures Abs(signed * mid * SkewScale) <= SkewPi * SkewScale * Abs(mid)
  {
    AbsMul(signed, mid);
    AbsMul(signed * mid, SkewScale);
    MulNonNeg(SkewPi - Abs(signed), Abs(mid));
    assert (SkewPi - Abs(signed)) * Abs(mid) == SkewPi * Abs(mid) - Abs(signed) * Abs(mid);
    MulNonNeg(SkewPi * Abs(mid) - Abs(signed) * Abs(mid), SkewScale);
    assert (SkewPi * Abs(mid) - Abs(signed) * Abs(mid)) * SkewScale
      == SkewPi * SkewScale * Abs(mid) - Abs(signed) * Abs(mid) * SkewScale;
  }

  /** `if (v > 1.57079633) v = 1.57079633; v = sin(v);`: every argument at
      or beyond the cap reads sin(HalfPi), and a bounded sin stays in
      [-1, 1]. */
  function CappedSin(v: real, sin: real -> real): (r: real)
    ensures v >= HalfPi ==> r == sin(HalfPi)
    ensures SinBounded(sin) ==> -1.0 <= r <= 1.0
  {
    sin(if v > HalfPi then HalfPi else v)
  }

  /** The magnitude of the mid-band shaper: two capped sine passes around
      the skew, the second after the drive. */
  function SkewedSine(mid: real, last: real, drive: real, sin: real -> real): (r: real)
    ensures SinBounded(sin) ==> -1.0 <= r <= 1.0
  {
    TwoPass(Abs(mid), Skew(mid, last, sin), drive, sin)
  }

  /** The two capped sine passes: whatever the skew and the drive, a
      bounded sin leaves the result in [-1, 1]. */
  function TwoPass(magnitude: real, skew: real, drive: real, sin: real -> real): (r: real)
    ensures SinBounded(sin) ==> -1.0 <= r <= 1.0
  {
    CappedSin(CappedSin(magnitude + skew, sin) * drive + skew, sin)
  }

  /** The mid-band shaper on the driven mid sample, with the sign of the
      mid sample restored. Whatever the skew, the result lies in [-1, 1]. */
  function MidShape(mid: real, last: real, drive: real, sin: real -> real): (r: real)
    ensures SinBounded(sin) ==> -1.0 <= r <= 1.0
  {
    var m := SkewedSine(mid, last, drive, sin);
    if mid > 0.0 then m else -m
  }

  /** `((low*drive + mid + high*drive) / drive) * out`, where low and high
      are the shaped bands before their drive multiply. With all three in
      [-1, 1] and drive >= 1 the result is at most 3 |out| in magnitude. */
  function Recombine(low: real, mid: real, high: real, drive: real, out: real): (r: real)
    requires drive != 0.0
    ensures Abs(low) <= 1.0 && Abs(mid) <= 1.0 && Abs(high) <= 1.0 && drive >= 1.0 ==> Abs(r) <= 3.0 * Abs(out)
  {
    RecombineBound(low, mid, high, drive, out);
    (low * drive + mid + high * drive) / drive * out
  }

  lemma RecombineBound(low: real, mid: real, high: real, drive: real, out: real)
    requires drive != 0.0
    ensures Abs(low) <= 1.0 && Abs(mid) <= 1.0 && Abs(high) <= 1.0 && drive >= 1.0 ==>
      Abs((low * drive + mid + high * drive) / drive * out) <= 3.0 * Abs(out)
  {
    if Abs(low) <= 1.0 && Abs(mid) <= 1.0 && Abs(high) <= 1.0 && drive >= 1.0 {
      var v := (low * drive + mid + high * drive) / drive;
      UndoDrive(low, mid, high, drive);
      DivideByDrive(mid, drive);
      assert Abs(v) <= 3.0;
      ScaledBound(v, out, 3.0);
    }
  }

  lemma ScaledBound(v: real, out: real, bound: real)
    requires Abs(v) <= bound
    ensures Abs(v * out) <= bound * Abs(out)
  {
    AbsMul(v, out);
    MulNonNeg(bound - Abs(v), Abs(out));
    assert (bound - Abs(v)) * Abs(out) == bound * Abs(out) - Abs(v) * Abs(out);
  }

  lemma DivideByDrive(x: real, drive: real)
    requires drive >= 1.0
    ensures Abs(x / drive) <= Abs(x)
  {
    var inv := 1.0 / drive;
    assert 0.0 < inv <= 1.0;
    assert x / drive == x * inv;
    ScaleShrinks(x, inv);
  }

  lemma UndoDrive(low: real, mid: real, high: real, drive: real)
    requires drive != 0.0
    ensures (low * drive + mid + high * drive) / drive == low + high + mid / drive
  {
    var inv := 1.0 / drive;
    assert drive * inv == 1.0;
    assert (low * drive + mid + high * drive) / drive == (low * drive + mid + high * drive) * inv;
    assert (low * drive + mid + high * drive) * inv == low * (drive * inv) + mid * inv + high * (drive * inv);
  }

  /** The drive multiply, applied to the input and again to the mid band:
      a unit drive leaves the sample alone, and dividing by a non-zero
      drive undoes it. */
  function Drive(x: real, k: DrumCoeffs): (r: real)
    ensures k.drive == 1.0 ==> r == x
    ensures k.drive != 0.0 ==> r / k.drive == x
  {
    x * k.drive
  }

  /** One sample of one channel through DrumSlam. */
  function DrumStep(k: DrumCoeffs, st: DrumLane, flip: bool, s: real, sin: real -> real): (r: DrumOut)
    requires k.drive != 0.0
    // the cascades advance as the split says, and the mid memory becomes
    // the driven mid band of this sample
    ensures var b := Split(k, st, flip, r.driveTap); r.lane == b.lane.(last := Drive(b.mid, k))
    // the drive meter taps the driven input
    ensures r.driveTap == Drive(s, k)
    // the output tap is the recombination of the shaped bands, the mid
    // band shaped after its own drive multiply
    ensures var b := Split(k, st, flip, r.driveTap); r.outTap == Shaped(k, b, Drive(b.mid, k), st.last, sin)
    // the stage output crossfades from the stage input to the output tap
    ensures r.out == Mix(r.outTap, s, k.wet)
  {
    var driven := Drive(s, k);
    var bands := Split(k, st, flip, driven);
    var mid := Drive(bands.mid, k);
    var shaped := Shaped(k, bands, mid, st.last, sin);
    DrumOut(Mix(shaped, s, k.wet), bands.lane.(last := mid), driven, shaped)
  }

  /** For every weight, the stage output r moves from the stage input
      towards the output tap by exactly the wet fraction. */
  lemma DrumStepCrossfade(k: DrumCoeffs, st: DrumLane, flip: bool, s: real, sin: real -> real, r: DrumOut)
    requires k.drive != 0.0 && r == DrumStep(k, st, flip, s, sin)
    ensures r.out - s == (r.outTap - s) * k.wet
  {
    OutCrossfade(r, s, k.wet);
  }

  /** An output that crossfades its tap with the input lies the wet
      fraction of the way from the input to the tap. */
  lemma OutCrossfade(r: DrumOut, s: real, wet: real)
    requires r.out == Mix(r.outTap, s, wet)
    ensures r.out - s == (r.outTap - s) * wet
  {
    MixDistance(r.outTap, s, wet);
  }

  /** The three shaped bands recombined, scaled by the output gain. */
  function Shaped(k: DrumCoeffs, bands: Bands, mid: real, last: real, sin: real -> real): (r: real)
    requires k.drive != 0.0
    ensures SinBounded(sin) && k.drive >= 1.0 ==> Abs(r) <= 3.0 * Abs(k.out)
  {
    Recombine(LowShape(bands.low), MidShape(mid, last, k.drive, sin), HighShape(bands.high), k.drive, k.out)
  }

  /** Only the cascade pair the flip selects changes. */
  lemma DrumStepPairs(k: DrumCoeffs, st: DrumLane, flip: bool, s: real, sin: real -> real)
    requires k.drive != 0.0
    ensures var r := DrumStep(k, st, flip, s, sin);
      && (flip ==> r.lane.c == st.c && r.lane.d == st.d && r.lane.g == st.g && r.lane.h == st.h)
      && (!flip ==> r.lane.a == st.a && r.lane.b == st.b && r.lane.e == st.e && r.lane.f == st.f)
  {
  }

  /** With the clamps in front of every shaper and drive >= 1, the
      recombined output is at most 3 |out| in magnitude. */
  lemma DrumStepBounded(k: DrumCoeffs, st: DrumLane, flip: bool, s: real, sin: real -> real)
    requires SinBounded(sin) && k.drive >= 1.0
    ensures Abs(DrumStep(k, st, flip, s, sin).outTap) <= 3.0 * Abs(k.out)
  {
  }

  /** Dry/wet against the sample that entered the stage. */
  lemma DrumStepDryWet(k: DrumCoeffs, st: DrumLane, flip: bool, s: real, sin: real -> real)
    requires k.drive != 0.0
    ensures k.wet == 1.0 ==> DrumStep(k, st, flip, s, sin).out == DrumStep(k, st, flip, s, sin).outTap
    ensures k.wet == 0.0 ==> DrumStep(k, st, flip, s, sin).out == s
  {
  }

  /** The split is exact on both flip branches. */
  lemma SplitExact(k: DrumCoeffs, st: DrumLane, s: real)
    ensures Split(k, st, true, s).low + Split(k, st, true, s).mid + Split(k, st, true, s).high == s
    ensures Split(k, st, false, s).low + Split(k, st, false, s).mid + Split(k, st, false, s).high == s
  {
  }

  /** The band saturators are odd. */
  lemma SaturateOdd(x: real, w: real)
    requires 0.0 <= w <= 1.0
    ensures Saturate(-x, w) == -Saturate(x, w)
  {
    assert Clamp(-x) == -Clamp(x);
    assert Abs(-Clamp(x)) == Abs(Clamp(x));
  }

  /** Mirroring a non-zero mid sample and its predecessor mirrors the mid
      shaper's output, provided the sample actually changed: the skew term
      is even in the mirror. */
  lemma MidShapeOdd(mid: real, last: real, drive: real, sin: real -> real)
    requires mid != 0.0 && mid != last
    ensures MidShape(-mid, -last, drive, sin) == -MidShape(mid, last, drive, sin)
  {
    var change := mid - last;
    assert Abs(-mid - -last) == Abs(change);
    var capped := if Abs(change) > SkewPi then SkewPi else Abs(change);
    var signed := if change > 0.0 then sin(capped) * SkewPi else -sin(capped) * SkewPi;
    var signed' := if -change > 0.0 then sin(capped) * SkewPi else -sin(capped) * SkewPi;
    assert signed' == -signed;
    assert signed' * (-mid) == signed * mid;
    assert Skew(-mid, -last, sin) == Skew(mid, last, sin);
    assert Abs(-mid) == Abs(mid);
    assert SkewedSine(-mid, -last, drive, sin) == SkewedSine(mid, last, drive, sin);
  }
}
