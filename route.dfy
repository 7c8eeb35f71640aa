/**
 * A synthesized route. Immutable: start, destination, the ordered instructions
 * and the total distance are kept exactly as given to the constructor; the total
 * is stored, never recomputed from the legs.
 */
module Routes {
  import opened CampusLocations
  import opened Instructions

  datatype Route = Route(
    start: CampusLocation,
    destination: CampusLocation,
    instructions: seq<NavigationInstruction>,
    totalDistance: real)
}
