/**
 * A named point of interest on campus, as read from the location registry.
 * The record is immutable: its fields are the constructor's arguments, stored
 * without validation (latitude and longitude may lie outside any valid range),
 * and the Java class's getters are the datatype's field selectors.
 */
module CampusLocations {

  datatype CampusLocation = CampusLocation(
    id: string,
    name: string,
    latitude: real,
    longitude: real,
    description: string,
    category: string)
  {
    /** The text a list widget shows for this location: its name and nothing else. */
    function ToString(): string {
      name
    }
  }

  /** The labels of the destination picker, which lists the locations through ToString. */
  function PickerLabels(locations: seq<CampusLocation>): (labels: seq<string>)
    ensures |labels| == |locations|
    ensures forall i :: 0 <= i < |locations| ==> labels[i] == locations[i].name
  {
    if locations == [] then []
    else [locations[0].ToString()] + PickerLabels(locations[1..])
  }
}
