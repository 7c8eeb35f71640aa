/**
 * The nearest-location search: a scan over the registry's locations that keeps
 * the closest one seen so far, starting from the largest double as the bound.
 * Reading the registry from the database is not part of this model: the list is
 * a parameter. The distance is a GreatCircle function value.
 */
module MapManager {
  import opened Wrappers
  import opened CampusLocations
  import opened LocationHelper

  /** Double.MAX_VALUE, the initial bound of the search. */
  const DOUBLE_MAX: real := 179769313486231570814527423731704356798070567525844996598917476803157260780028538760589558632766878171540458953514382464234321326889464182768467546703537516986049910576551282076245490090389328944075868508455133942304583236903222948165808559332123348274797826204144723168738177180919299881250404026184124858368.0

  function DistanceTo(distance: GreatCircle, latitude: real, longitude: real, location: CampusLocation): real {
    distance(latitude, longitude, location.latitude, location.longitude)
  }

  /** The pair of loop variables: the location kept so far and its distance. */
  datatype Scan = Scan(nearest: Option<CampusLocation>, minDistance: real)

  /** The loop state after scanning `locations` in order; a location replaces the kept one only if strictly closer. */
  function ScanNearest(locations: seq<CampusLocation>, distance: GreatCircle, latitude: real, longitude: real): Scan
    decreases |locations|
  {
    if locations == [] then Scan(None, DOUBLE_MAX)
    else
      var before := ScanNearest(locations[..|locations| - 1], distance, latitude, longitude);
      var last := locations[|locations| - 1];
      var d := DistanceTo(distance, latitude, longitude, last);
      if d < before.minDistance then Scan(Some(last), d) else before
  }

  /** The index of the first location of minimal distance, when that distance is below the bound. */
  ghost predicate IsFirstNearest(locations: seq<CampusLocation>, distance: GreatCircle, latitude: real, longitude: real, k: int) {
    && 0 <= k < |locations|
    && DistanceTo(distance, latitude, longitude, locations[k]) < DOUBLE_MAX
    && (forall j :: 0 <= j < |locations| ==>
          DistanceTo(distance, latitude, longitude, locations[k]) <= DistanceTo(distance, latitude, longitude, locations[j]))
    && (forall j :: 0 <= j < k ==>
          DistanceTo(distance, latitude, longitude, locations[k]) < DistanceTo(distance, latitude, longitude, locations[j]))
  }

  /**
   * What the scan computes: nothing when every distance is at or above the bound
   * (in particular for an empty list); otherwise the first location of minimal
   * distance, with that distance.
   */
  lemma {:induction false} ScanNearestIsFirstMinimum(locations: seq<CampusLocation>, distance: GreatCircle, latitude: real, longitude: real)
    ensures var r := ScanNearest(locations, distance, latitude, longitude);
      && r.minDistance <= DOUBLE_MAX
      && (forall j :: 0 <= j < |locations| ==> r.minDistance <= DistanceTo(distance, latitude, longitude, locations[j]))
      && (r.nearest.None? <==> forall j :: 0 <= j < |locations| ==> DistanceTo(distance, latitude, longitude, locations[j]) >= DOUBLE_MAX)
      && (r.nearest.None? ==> r.minDistance == DOUBLE_MAX)
      && (r.nearest.Some? ==> exists k :: IsFirstNearest(locations, distance, latitude, longitude, k)
                                        && locations[k] == r.nearest.value
                                        && DistanceTo(distance, latitude, longitude, locations[k]) == r.minDistance)
    decreases |locations|
  {
    if locations != [] {
      var n := |locations| - 1;
      var prefix := locations[..n];
      ScanNearestIsFirstMinimum(prefix, distance, latitude, longitude);
      var before := ScanNearest(prefix, distance, latitude, longitude);
      var d := DistanceTo(distance, latitude, longitude, locations[n]);
      assert forall j :: 0 <= j < n ==> locations[j] == prefix[j];
      if d < before.minDistance {
        assert IsFirstNearest(locations, distance, latitude, longitude, n);
      } else if before.nearest.Some? {
        var k :| IsFirstNearest(prefix, distance, latitude, longitude, k)
                 && prefix[k] == before.nearest.value
                 && DistanceTo(distance, latitude, longitude, prefix[k]) == before.minDistance;
        assert IsFirstNearest(locations, distance, latitude, longitude, k);
      }
    }
  }

  /** Two first-minimum indices are the same index: the result is determined. */
  lemma FirstNearestIsUnique(locations: seq<CampusLocation>, distance: GreatCircle, latitude: real, longitude: real, k1: int, k2: int)
    requires IsFirstNearest(locations, distance, latitude, longitude, k1)
    requires IsFirstNearest(locations, distance, latitude, longitude, k2)
    ensures k1 == k2
  {
  }

  /**
   * findNearestLocation: scans the list once, keeping the first strictly closer
   * location. The result is null exactly when no location is closer than the
   * bound (always so for an empty list); otherwise it is the list's first
   * location of least distance. The list itself is a value and is not changed.
   */
  method FindNearestLocation(locations: seq<CampusLocation>, distance: GreatCircle, latitude: real, longitude: real)
    returns (nearest: Option<CampusLocation>)
    ensures nearest == ScanNearest(locations, distance, latitude, longitude).nearest
    ensures nearest.None? <==> forall j :: 0 <= j < |locations| ==> DistanceTo(distance, latitude, longitude, locations[j]) >= DOUBLE_MAX
    ensures nearest.Some? ==> exists k :: IsFirstNearest(locations, distance, latitude, longitude, k) && locations[k] == nearest.value
  {
    nearest := None;
    var minDistance := DOUBLE_MAX;
    for i := 0 to |locations|
      invariant Scan(nearest, minDistance) == ScanNearest(locations[..i], distance, latitude, longitude)
    {
      assert locations[..i + 1][..i] == locations[..i];
      var d := DistanceTo(distance, latitude, longitude, locations[i]);
      if d < minDistance {
        minDistance := d;
        nearest := Some(locations[i]);
      }
    }
    assert locations[..|locations|] == locations;
    ScanNearestIsFirstMinimum(locations, distance, latitude, longitude);
  }
}
