/** The spatial-audio arithmetic of one sound: the relative angle between the
    listener's heading and the sound, the stereo pan and the lowpass cutoff
    derived from it, and the inverse-square volume. Everything is exact `real`
    arithmetic; the trigonometry that produces the raw bearing and the distance
    is outside this module. */
module Spatial {

  /** Cutoff of the lowpass filter when it is fully open, in Hz. */
  const FullOpenHz: real := 11000.0
  /** How far the cutoff drops per degree that the sound lies behind the listener. */
  const HzPerDegreeBehind: real := 55.0
  /** The cutoff for a sound directly behind the listener: 11000 - 90 * 55. */
  const DirectlyBehindHz: real := 6050.0
  /** Metres to statute miles, as the distance helper converts them. */
  const MilesPerMetre: real := 0.000621371192

  function Abs(x: real): real { if x < 0.0 then -x else x }

  function Min(x: real, y: real): real { if x <= y then x else y }

  // ---------------------------------------------------------------------------
  // Relative angle

  /** The one-shot correction of a relative angle towards [-180, 180]: add or
      subtract a single full turn when the angle lies beyond -180 or 180. */
  function Normalize(angle: real): (a: real)
    ensures a == angle || a == angle + 360.0 || a == angle - 360.0
    ensures -180.0 <= angle <= 180.0 ==> a == angle
  {
    if angle < -180.0 then angle + 360.0
    else if angle > 180.0 then angle - 360.0
    else angle
  }

  /** The angle of the sound relative to where the listener looks: the raw
      bearing (degrees, as atan2 gives it) minus the heading, corrected once. */
  function RelativeAngle(bearing: real, heading: real): (a: real)
    ensures -180.0 < bearing <= 180.0 && 0.0 <= heading < 360.0 ==> -180.0 <= a <= 180.0
  {
    Normalize(bearing - heading)
  }

  /** A single correction brings exactly the angles of [-540, 540] into range. */
  lemma NormalizeInRangeIff(angle: real)
    ensures -180.0 <= Normalize(angle) <= 180.0 <==> -540.0 <= angle <= 540.0
  {
  }

  // ---------------------------------------------------------------------------
  // Pan

  /** The stereo pan of a sound at `angle`: angle / 90, with any excess beyond
      +1 or -1 reflected back towards the centre. */
  function Pan(angle: real): (p: real)
    ensures -180.0 <= angle <= 180.0 ==> -1.0 <= p <= 1.0
    ensures 0.0 <= angle <= 180.0 ==> p >= 0.0
    ensures -180.0 <= angle <= 0.0 ==> p <= 0.0
  {
    var pan := angle / 90.0;
    if Abs(pan) > 1.0 then
      var excess := Abs(pan) - 1.0;
      if pan > 0.0 then 1.0 - excess else -1.0 + excess
    else
      pan
  }

  /** The pan stays within [-1, 1] for exactly the angles of [-270, 270]. */
  lemma PanInRangeIff(angle: real)
    ensures -1.0 <= Pan(angle) <= 1.0 <==> -270.0 <= angle <= 270.0
  {
  }

  /** In front of the listener the pan is linear in the angle. */
  lemma PanInFront(angle: real)
    requires -90.0 <= angle <= 90.0
    ensures Pan(angle) == angle / 90.0
  {
  }

  /** Behind the listener the pan folds back: sign(angle) * (2 - |angle| / 90). */
  lemma PanBehind(angle: real)
    requires Abs(angle) > 90.0
    ensures Pan(angle) == (if angle > 0.0 then 1.0 else -1.0) * (2.0 - Abs(angle) / 90.0)
  {
  }

  /** An independent description of the pan on [0, 180]: a triangle that peaks
      at +1 when the sound is exactly to the right (90 degrees). */
  lemma PanIsTriangle(angle: real)
    requires 0.0 <= angle <= 180.0
    ensures Pan(angle) == 1.0 - Abs(angle - 90.0) / 90.0
  {
  }

  /** Mirroring the sound left-to-right mirrors the pan. */
  lemma PanIsOdd(angle: real)
    ensures Pan(-angle) == -Pan(angle)
  {
  }

  /** The worked fold examples: a raw pan of 1.2 becomes 0.8, -1.3 becomes
      -0.7, and a sound straight behind is centred. */
  lemma PanFoldExamples()
    ensures Pan(108.0) == 0.8
    ensures Pan(-117.0) == -0.7
    ensures Pan(180.0) == 0.0 && Pan(-180.0) == 0.0
    ensures Pan(90.0) == 1.0 && Pan(-90.0) == -1.0
  {
  }

  // ---------------------------------------------------------------------------
  // Lowpass cutoff

  /** The lowpass cutoff for a sound at `angle`: fully open in front, closing
      by 55 Hz per degree that the sound lies behind the listener. */
  function Cutoff(angle: real): (hz: real)
    ensures hz <= FullOpenHz
    ensures hz == FullOpenHz <==> Abs(angle) <= 90.0
    ensures Abs(angle) <= 180.0 ==> DirectlyBehindHz <= hz
  {
    if Abs(angle) > 90.0 then FullOpenHz - (Abs(angle) - 90.0) * HzPerDegreeBehind
    else FullOpenHz
  }

  /** Past 90 degrees the cutoff strictly falls as the sound moves further behind. */
  lemma CutoffStrictlyDecreasing(a1: real, a2: real)
    requires 90.0 <= Abs(a1) < Abs(a2)
    ensures Cutoff(a2) < Cutoff(a1)
  {
  }

  /** Overall the cutoff never rises as |angle| grows, and depends only on |angle|. */
  lemma CutoffMonotone(a1: real, a2: real)
    requires Abs(a1) <= Abs(a2)
    ensures Cutoff(a2) <= Cutoff(a1)
    ensures Cutoff(-a1) == Cutoff(a1)
  {
  }

  /** Directly behind, the filter reaches its lowest in-range value. */
  lemma CutoffDirectlyBehind()
    ensures Cutoff(180.0) == DirectlyBehindHz && Cutoff(-180.0) == DirectlyBehindHz
  {
  }

  /** No floor is applied: the cutoff stays non-negative only up to 290 degrees. */
  lemma CutoffNonNegativeIff(angle: real)
    ensures Cutoff(angle) >= 0.0 <==> Abs(angle) <= 290.0
  {
  }

  // ---------------------------------------------------------------------------
  // Volume

  /** The volume of a sound of amplitude `db` heard at `distance`: the inverse
      square of the distance scaled by the amplitude, capped at 1. */
  function Volume(distance: real, db: real): (v: real)
    requires distance != 0.0
    ensures v <= 1.0
    ensures db >= 0.0 ==> v >= 0.0
  {
    SquarePositive(distance);
    var inverseSquare := 1.0 / (distance * distance);
    Min(inverseSquare * db, 1.0)
  }

  lemma SquarePositive(x: real)
    requires x != 0.0
    ensures x * x > 0.0 && 1.0 / (x * x) > 0.0
  {
    if x < 0.0 {
      assert x * x == (-x) * (-x);
    }
  }

  lemma ScaleMonotone(a: real, b: real, c: real)
    requires a <= b && c >= 0.0
    ensures a * c <= b * c
  {
  }

  lemma ReciprocalAntitone(s1: real, s2: real)
    requires 0.0 < s1 <= s2
    ensures 1.0 / s2 <= 1.0 / s1
  {
    var r1, r2 := 1.0 / s1, 1.0 / s2;
    assert r1 * s1 == 1.0 && r2 * s2 == 1.0;
    assert r2 * s1 <= r2 * s2;
    assert r2 * s1 <= r1 * s1;
  }

  /** Below the cap the volume obeys the inverse-square law exactly, and the cap
      is reached exactly when the amplitude is at least the squared distance. */
  lemma VolumeInverseSquare(distance: real, db: real)
    requires distance != 0.0
    ensures Volume(distance, db) == 1.0 <==> db >= distance * distance
    ensures Volume(distance, db) < 1.0 ==> Volume(distance, db) * (distance * distance) == db
  {
    var sq := distance * distance;
    SquarePositive(distance);
    assert (1.0 / sq) * sq == 1.0;
    assert (1.0 / sq) * db * sq == db;
    if db >= sq {
      assert (1.0 / sq) * db >= (1.0 / sq) * sq;
    } else {
      assert (1.0 / sq) * db < (1.0 / sq) * sq;
    }
  }

  /** For a non-negative amplitude, moving away never makes a sound louder. */
  lemma VolumeNonIncreasing(d1: real, d2: real, db: real)
    requires 0.0 < d1 <= d2
    requires db >= 0.0
    ensures Volume(d2, db) <= Volume(d1, db)
  {
    var s1, s2 := d1 * d1, d2 * d2;
    ScaleMonotone(d1, d2, d1);
    assert d1 * d1 <= d2 * d1;
    ScaleMonotone(d1, d2, d2);
    assert d1 * d2 <= d2 * d2;
    assert d2 * d1 == d1 * d2;
    assert s1 <= s2;
    SquarePositive(d1);
    ReciprocalAntitone(s1, s2);
    ScaleMonotone(1.0 / s2, 1.0 / s1, db);
    assert Volume(d1, db) == Min((1.0 / s1) * db, 1.0);
    assert Volume(d2, db) == Min((1.0 / s2) * db, 1.0);
  }

  /** At a fixed distance, a larger amplitude never gives a quieter sound. */
  lemma VolumeNonDecreasingInAmplitude(distance: real, db1: real, db2: real)
    requires distance != 0.0
    requires db1 <= db2
    ensures Volume(distance, db1) <= Volume(distance, db2)
  {
    var sq := distance * distance;
    SquarePositive(distance);
    assert (1.0 / sq) * db1 <= (1.0 / sq) * db2;
  }

  // ---------------------------------------------------------------------------
  // Distance units

  /** A distance in metres expressed in the requested unit: miles when asked
      for, metres otherwise. */
  function InUnit(metres: real, metric: string): (d: real)
    ensures metric == "miles" ==> d == metres * MilesPerMetre
    ensures metric != "miles" ==> d == metres
    ensures metres >= 0.0 ==> 0.0 <= d <= metres
  {
    if metric == "miles" then metres * MilesPerMetre else metres
  }

  /** The conversion to miles loses nothing: dividing by the factor gives back
      the metres, and a longer distance is never fewer miles. */
  lemma MilesRoundTrip(m1: real, m2: real)
    ensures InUnit(m1, "miles") / MilesPerMetre == m1
    ensures m1 <= m2 ==> InUnit(m1, "miles") <= InUnit(m2, "miles")
  {
  }
}
