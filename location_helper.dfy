/**
 * The geodesy helpers. The great-circle distance and the initial bearing are
 * trigonometry on doubles; here they are function values handed in by the
 * caller (GreatCircle), of which at most non-negativity of the distance is
 * assumed. The bearing function stands for the atan2 azimuth in degrees only;
 * what is modelled exactly is the arithmetic around it: the normalisation that
 * calculateBearing applies to that raw value, and the cardinal-point table.
 */
module LocationHelper {

  /** A position fix (android.location.Location reduced to its two coordinates). */
  datatype Coordinate = Coordinate(latitude: real, longitude: real)

  /** A function of (lat1, lon1, lat2, lon2), such as the haversine distance or the bearing. */
  type GreatCircle = (real, real, real, real) -> real

  /** What the haversine formula guarantees of its result: it is never negative. */
  ghost predicate NonNegative(f: GreatCircle) {
    forall lat1, lon1, lat2, lon2 :: f(lat1, lon1, lat2, lon2) >= 0.0
  }

  predicate IsIntegral(q: real) {
    q == q.Floor as real
  }

  /** Rounding toward zero, as Java does when it drops a fraction. */
  function Trunc(x: real): (r: int)
    ensures 0.0 <= x ==> 0 <= r && r as real <= x < r as real + 1.0
    ensures x < 0.0 ==> r <= 0 && r as real - 1.0 < x <= r as real
  {
    if x >= 0.0 then x.Floor else -((-x).Floor)
  }

  /**
   * Java's `x % 360` on doubles: the remainder of a division truncated toward
   * zero, so it takes the sign of x and differs from x by whole turns.
   */
  function Rem360(x: real): (r: real)
    ensures 0.0 <= x ==> 0.0 <= r < 360.0
    ensures x < 0.0 ==> -360.0 < r <= 0.0
    ensures IsIntegral((x - r) / 360.0)
  {
    var q := Trunc(x / 360.0);
    assert (x - (x - 360.0 * q as real)) / 360.0 == q as real;
    x - 360.0 * q as real
  }

  /**
   * The last step of calculateBearing: `(bearing + 360) % 360`. For the range of
   * atan2 in degrees, [-180, 180], the result lies in [0, 360); negative bearings
   * gain a full turn and the others are kept. The result always differs from the
   * input by whole turns.
   */
  function NormalizeBearing(raw: real): (r: real)
    ensures -360.0 < raw ==> 0.0 <= r < 360.0
    ensures -360.0 < raw < 0.0 ==> r == raw + 360.0
    ensures 0.0 <= raw < 360.0 ==> r == raw
    ensures IsIntegral((raw - r) / 360.0)
  {
    NormalizeBearingTurns(raw);
    Rem360(raw + 360.0)
  }

  lemma NormalizeBearingTurns(raw: real)
    ensures var r := Rem360(raw + 360.0);
      && (-360.0 < raw < 0.0 ==> r == raw + 360.0)
      && (0.0 <= raw < 360.0 ==> r == raw)
      && IsIntegral((raw - r) / 360.0)
  {
    var x := raw + 360.0;
    var r := Rem360(x);
    if -360.0 < raw < 0.0 {
      assert 0.0 < x / 360.0 < 1.0;
      assert Trunc(x / 360.0) == 0;
    } else if 0.0 <= raw < 360.0 {
      assert 1.0 <= x / 360.0 < 2.0;
      assert Trunc(x / 360.0) == 1;
    }
    var k := ((x - r) / 360.0).Floor;
    assert (raw - r) / 360.0 == (k - 1) as real;
  }

  /**
   * calculateBearing: the caller's raw azimuth in degrees (atan2's range), then
   * its last line, `(bearing + 360) % 360`. Raw azimuths above -360 come out in
   * [0, 360): negative ones gain a full turn, the others are kept.
   */
  function CalculateBearing(rawBearing: GreatCircle, lat1: real, lon1: real, lat2: real, lon2: real): (r: real)
    ensures var raw := rawBearing(lat1, lon1, lat2, lon2);
      && (-360.0 < raw ==> 0.0 <= r < 360.0)
      && (-360.0 < raw < 0.0 ==> r == raw + 360.0)
      && (0.0 <= raw < 360.0 ==> r == raw)
  {
    NormalizeBearing(rawBearing(lat1, lon1, lat2, lon2))
  }

  /**
   * getDirectionFromBearing: the cardinal point of a bearing in degrees, with
   * lower-inclusive quadrant boundaries. Every real has exactly one answer;
   * anything at or above 315 or below 45, out of range or not, is north.
   */
  function CardinalFromBearing(bearing: real): (r: string)
    ensures r in {"北", "东", "南", "西"}
    ensures r == "北" <==> (bearing >= 315.0 || bearing < 45.0)
    ensures r == "东" <==> 45.0 <= bearing < 135.0
    ensures r == "南" <==> 135.0 <= bearing < 225.0
    ensures r == "西" <==> 225.0 <= bearing < 315.0
  {
    if bearing >= 315.0 || bearing < 45.0 then "北"
    else if bearing >= 45.0 && bearing < 135.0 then "东"
    else if bearing >= 135.0 && bearing < 225.0 then "南"
    else "西"
  }
}
