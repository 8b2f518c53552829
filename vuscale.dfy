/** The VU meter's needle scale: a fixed table of (dB, angle) breakpoints
    with piecewise-linear interpolation between them, clamped at both
    ends. Angles are degrees from 12 o'clock, negative to the left. */
module VuScale {

  import opened Numerics

  datatype Point = Point(db: real, angle: real)

  /** The standard VU breakpoints, in increasing dB and angle. */
  const Table: seq<Point> := [
    Point(-20.0, -50.0), Point(-10.0, -28.0), Point(-7.0, -17.0), Point(-5.0, -8.0),
    Point(-3.0, 2.0), Point(-1.0, 14.0), Point(0.0, 25.0), Point(1.0, 33.0),
    Point(2.0, 39.0), Point(3.0, 50.0)]

  const NumPoints: nat := 10

  /** Both columns of the table strictly increase. */
  lemma TableIncreasing(i: nat)
    requires i < NumPoints - 1
    ensures Table[i].db < Table[i + 1].db && Table[i].angle < Table[i + 1].angle
  {
  }

  /** db lies in the closed segment between breakpoints i and i + 1. */
  predicate InSegment(db: real, i: nat)
    requires i < NumPoints - 1
  {
    Table[i].db <= db <= Table[i + 1].db
  }

  /** The straight line from lo to hi, evaluated at db: it passes through
      both end points. */
  function Lerp(lo: Point, hi: Point, db: real): (r: real)
    requires lo.db < hi.db
    ensures db == lo.db ==> r == lo.angle
    ensures db == hi.db ==> r == hi.angle
  {
    var t := (db - lo.db) / (hi.db - lo.db);
    assert db == hi.db ==> t == 1.0 by {
      if db == hi.db {
        SelfRatio(hi.db - lo.db);
      }
    }
    lo.angle + t * (hi.angle - lo.angle)
  }

  /** The linear interpolation across segment i: it reads the breakpoint
      angles at both ends of the segment. */
  function Interpolate(db: real, i: nat): (r: real)
    requires i < NumPoints - 1
    ensures db == Table[i].db ==> r == Table[i].angle
    ensures db == Table[i + 1].db ==> r == Table[i + 1].angle
  {
    TableIncreasing(i);
    Lerp(Table[i], Table[i + 1], db)
  }

  /** The last breakpoint at or below db, searching upward from i. */
  function LastBelow(db: real, i: nat): (k: nat)
    requires i < NumPoints - 1 && Table[i].db <= db
    ensures i <= k < NumPoints - 1 && Table[k].db <= db
    ensures k + 1 < NumPoints - 1 ==> db < Table[k + 1].db
    decreases NumPoints - i
  {
    if i + 1 < NumPoints - 1 && Table[i + 1].db <= db then LastBelow(db, i + 1) else i
  }

  /** The scale as a function: clamped below the first and above the last
      breakpoint, otherwise interpolated on the segment whose lower end is
      the last breakpoint at or below db. Every reading lies between the
      two ends of the scale, -50 and 50 degrees. */
  function ScaleAngle(db: real): (r: real)
    ensures Table[0].angle <= r <= Table[NumPoints - 1].angle
  {
    if db <= Table[0].db then Table[0].angle
    else if db >= Table[NumPoints - 1].db then Table[NumPoints - 1].angle
    else
      var k := LastBelow(db, 0);
      InterpolateBetween(db, k);
      AnglesBetweenEnds(k);
      AnglesBetweenEnds(k + 1);
      Interpolate(db, k)
  }

  /** A part of a positive whole, divided by the whole, lies in [0, 1]. */
  lemma UnitRatio(x: real, w: real)
    requires w > 0.0 && 0.0 <= x <= w
    ensures 0.0 <= x / w <= 1.0
  {
    var t := x / w;
    assert t * w == x;
    assert (1.0 - t) * w == w - x;
    FactorNonNeg(t, w);
    FactorNonNeg(1.0 - t, w);
  }

  /** A non-zero whole divided by itself is one. */
  lemma SelfRatio(w: real)
    requires w != 0.0
    ensures w / w == 1.0
  {
  }

  /** A factor of a non-negative product with a positive one is
      non-negative. */
  lemma FactorNonNeg(a: real, w: real)
    requires w > 0.0 && a * w >= 0.0
    ensures a >= 0.0
  {
  }

  /** Between its ends, a rising line runs from the lower to the upper
      angle. */
  lemma LerpBetween(lo: Point, hi: Point, db: real)
    requires lo.db < hi.db && lo.angle <= hi.angle && lo.db <= db <= hi.db
    ensures lo.angle <= Lerp(lo, hi, db) <= hi.angle
  {
    var t := (db - lo.db) / (hi.db - lo.db);
    UnitRatio(db - lo.db, hi.db - lo.db);
    var span := hi.angle - lo.angle;
    MulNonNeg(t, span);
    MulNonNeg(1.0 - t, span);
    assert span - t * span == (1.0 - t) * span;
  }

  /** A rising line is non-decreasing. */
  lemma LerpMonotone(lo: Point, hi: Point, db1: real, db2: real)
    requires lo.db < hi.db && lo.angle <= hi.angle && db1 <= db2
    ensures Lerp(lo, hi, db1) <= Lerp(lo, hi, db2)
  {
    var w := hi.db - lo.db;
    var t1, t2 := (db1 - lo.db) / w, (db2 - lo.db) / w;
    assert (t2 - t1) * w == db2 - db1;
    FactorNonNeg(t2 - t1, w);
    var span := hi.angle - lo.angle;
    MulNonNeg(t2 - t1, span);
    assert t2 * span - t1 * span == (t2 - t1) * span;
  }

  /** On its segment, the interpolation runs from the lower to the upper
      breakpoint's angle. */
  lemma InterpolateBetween(db: real, i: nat)
    requires i < NumPoints - 1 && InSegment(db, i)
    ensures Table[i].angle <= Interpolate(db, i) <= Table[i + 1].angle
  {
    TableIncreasing(i);
    LerpBetween(Table[i], Table[i + 1], db);
  }

  /** The interpolation is non-decreasing along its segment. */
  lemma InterpolateMonotone(db1: real, db2: real, i: nat)
    requires i < NumPoints - 1 && db1 <= db2
    ensures Interpolate(db1, i) <= Interpolate(db2, i)
  {
    TableIncreasing(i);
    LerpMonotone(Table[i], Table[i + 1], db1, db2);
  }

  /** The last breakpoint at or below a db inside segment i is either the
      segment's lower end or, when db sits on it, its upper end. */
  lemma LastBelowInSegment(db: real, i: nat)
    requires i < NumPoints - 1 && InSegment(db, i) && db < Table[NumPoints - 1].db
    ensures var k := LastBelow(db, 0); k == i || (k == i + 1 && db == Table[k].db)
  {
    var k := LastBelow(db, 0);
    if k < i {
      DbsIncrease(k + 1, i);
    } else if k > i + 1 {
      DbsIncrease(i + 1, k - 1);
      TableIncreasing(k - 1);
    }
  }

  /** Every segment containing db gives the scale's value: at a shared
      breakpoint the two neighbouring segments agree. */
  lemma SegmentAgrees(db: real, i: nat)
    requires i < NumPoints - 1 && InSegment(db, i)
    ensures Interpolate(db, i) == ScaleAngle(db)
  {
    InterpolateBetween(db, i);
    if Table[0].db < db < Table[NumPoints - 1].db {
      LastBelowInSegment(db, i);
      var k := LastBelow(db, 0);
      if k != i {
        InterpolateBetween(db, k);
      }
    }
  }

  /** The lowest reading: anything at or below -20 dB shows -50 degrees. */
  lemma ScaleFloor(db: real)
    requires db <= -20.0
    ensures ScaleAngle(db) == -50.0
  {
  }

  /** The highest reading: anything at or above +3 dB shows 50 degrees. */
  lemma ScaleCeiling(db: real)
    requires db >= 3.0
    ensures ScaleAngle(db) == 50.0
  {
  }

  /** Each breakpoint reads exactly its own angle. */
  lemma ScaleAtBreakpoint(k: nat)
    requires k < NumPoints
    ensures ScaleAngle(Table[k].db) == Table[k].angle
  {
    if 0 < k < NumPoints - 1 {
      SegmentAgrees(Table[k].db, k);
      InterpolateBetween(Table[k].db, k);
    }
  }

  /** Every breakpoint angle lies between the first and the last. */
  lemma AnglesBetweenEnds(k: nat)
    requires k < NumPoints
    ensures Table[0].angle <= Table[k].angle <= Table[NumPoints - 1].angle
  {
  }

  /** Breakpoint angles increase with their index. */
  lemma {:induction false} AnglesIncrease(j: nat, k: nat)
    requires j <= k < NumPoints
    ensures Table[j].angle <= Table[k].angle
    decreases k - j
  {
    if j < k {
      TableIncreasing(j);
      AnglesIncrease(j + 1, k);
    }
  }

  /** Breakpoint dB values increase with their index. */
  lemma {:induction false} DbsIncrease(j: nat, k: nat)
    requires j <= k < NumPoints
    ensures Table[j].db <= Table[k].db
    decreases k - j
  {
    if j < k {
      TableIncreasing(j);
      DbsIncrease(j + 1, k);
    }
  }

  /** The needle never moves left as the level rises. */
  lemma ScaleMonotone(db1: real, db2: real)
    requires db1 <= db2
    ensures ScaleAngle(db1) <= ScaleAngle(db2)
  {
    var lo, hi := Table[0].db, Table[NumPoints - 1].db;
    if lo < db1 < hi && lo < db2 < hi {
      var k1, k2 := LastBelow(db1, 0), LastBelow(db2, 0);
      if k1 == k2 {
        InterpolateMonotone(db1, db2, k1);
      } else {
        // segment k1 ends at or below the start of segment k2
        assert k1 < k2 by {
          if k2 < k1 {
            DbsIncrease(k2 + 1, k1);
          }
        }
        InterpolateBetween(db1, k1);
        InterpolateBetween(db2, k2);
        AnglesIncrease(k1 + 1, k2);
      }
    }
  }

  /** Inside the table's span, some segment contains db, so the search
      always finds one. */
  lemma {:induction false} SomeSegment(db: real, i: nat)
    requires i < NumPoints - 1 && Table[i].db <= db <= Table[NumPoints - 1].db
    ensures exists j | i <= j < NumPoints - 1 :: InSegment(db, j)
    decreases NumPoints - i
  {
    if db > Table[i + 1].db {
      SomeSegment(db, i + 1);
    } else {
      assert InSegment(db, i);
    }
  }

  /** dbToAngle: the clamps at both ends, then a search for the first
      segment containing db and the interpolation across it. The final
      `return 0` of the search is never reached. */
  method DbToAngle(db: real) returns (angle: real)
    ensures angle == ScaleAngle(db)
  {
    if db <= Table[0].db {
      return Table[0].angle;
    }
    if db >= Table[NumPoints - 1].db {
      return Table[NumPoints - 1].angle;
    }
    var i := 0;
    while i < NumPoints - 1
      invariant 0 <= i <= NumPoints - 1
      invariant forall j | 0 <= j < i :: !InSegment(db, j)
    {
      if db >= Table[i].db && db <= Table[i + 1].db {
        TableIncreasing(i);
        var t := (db - Table[i].db) / (Table[i + 1].db - Table[i].db);
        angle := Table[i].angle + t * (Table[i + 1].angle - Table[i].angle);
        assert angle == Interpolate(db, i);
        SegmentAgrees(db, i);
        return;
      }
      i := i + 1;
    }
    SomeSegment(db, 0);
    assert false;
  }
}
