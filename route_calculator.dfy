/**
 * Route synthesis: a straight-line distance and a bearing between two campus
 * locations become an ordered instruction list. Routes over 100 whole metres
 * are split into two legs, the first straight and the second in the direction
 * the bearing is classified as; every route ends in an ARRIVED instruction.
 */
module RouteCalculator {
  import opened Decimal
  import opened CampusLocations
  import opened Instructions
  import opened Routes
  import LocationHelper

  /** Distances above this many whole metres are split into two legs. */
  const SPLIT_THRESHOLD: int := 100

  /**
   * Java's `(int)` cast of a double: the fraction is dropped toward zero and
   * values beyond the 32-bit range saturate. For a non-negative distance inside
   * the range this is the floor.
   */
  function JavaIntCast(x: real): (r: Int32)
    ensures 0.0 <= x ==> 0 <= r
    ensures 0.0 <= x < 2147483648.0 ==> r == x.Floor
    ensures x >= 2147483647.0 ==> r == INT32_MAX
    ensures x <= -2147483648.0 ==> r == INT32_MIN
    ensures -2147483649.0 < x < 2147483648.0 ==> r == LocationHelper.Trunc(x)
  {
    var t := LocationHelper.Trunc(x);
    if t > INT32_MAX then INT32_MAX else if t < INT32_MIN then INT32_MIN else t
  }

  /**
   * getDirectionFromBearing of the route calculator: the turn table, with the
   * rear quadrant [135, 225) counted as straight on, like the forward one.
   */
  function TurnFromBearing(bearing: real): (r: Direction)
    ensures r != Arrived
    ensures r == Right <==> 45.0 <= bearing < 135.0
    ensures r == Left <==> 225.0 <= bearing < 315.0
    ensures r == Straight <==> (bearing >= 315.0 || bearing < 45.0 || 135.0 <= bearing < 225.0)
  {
    if bearing >= 315.0 || bearing < 45.0 then Straight
    else if bearing >= 45.0 && bearing < 135.0 then Right
    else if bearing >= 135.0 && bearing < 225.0 then Straight
    else Left
  }

  /** The turn each cardinal point of LocationHelper stands for: north and south are straight on. */
  function TurnOfCardinal(cardinal: string): Direction {
    if cardinal == "东" then Right
    else if cardinal == "西" then Left
    else Straight
  }

  /** The two bearing tables agree quadrant by quadrant. */
  lemma TurnAgreesWithCardinal(bearing: real)
    ensures TurnFromBearing(bearing) == TurnOfCardinal(LocationHelper.CardinalFromBearing(bearing))
  {
  }

  /** A due-west raw azimuth of -90 degrees is normalised to 270 and so turns left. */
  lemma WestwardRawBearingTurnsLeft()
    ensures TurnFromBearing(LocationHelper.NormalizeBearing(-90.0)) == Left
  {
  }

  /** Description of a straight leg: "直行 n 米". */
  function StraightText(n: int): string {
    "直行 " + IntToString(n) + " 米"
  }

  /** Description of the turn leg: the enum constant's name, then the length: "LEFT n 米". */
  function TurnText(d: Direction, n: int): string {
    EnumName(d) + " " + IntToString(n) + " 米"
  }

  /** Description of the terminal instruction. */
  function ArrivalText(destination: CampusLocation): string {
    "已到达 " + destination.name
  }

  /** Sum of the lengths of the legs that are not the arrival. */
  function LegTotal(instructions: seq<NavigationInstruction>): int
    decreases |instructions|
  {
    if instructions == [] then 0
    else
      (if instructions[0].direction == Arrived then 0 else instructions[0].distanceMeters as int)
      + LegTotal(instructions[1..])
  }

  /** The shape every synthesized route has: ARRIVED with 0 metres last, and nowhere else. */
  predicate EndsInArrival(instructions: seq<NavigationInstruction>) {
    && |instructions| >= 1
    && instructions[|instructions| - 1].direction == Arrived
    && instructions[|instructions| - 1].distanceMeters == 0
    && forall i :: 0 <= i < |instructions| - 1 ==> instructions[i].direction != Arrived
  }

  /** The route calculateRoute builds from a distance and a bearing. */
  function SynthesizedRoute(start: CampusLocation, destination: CampusLocation, distance: real, bearing: real): (route: Route)
    ensures route.start == start && route.destination == destination
    ensures route.totalDistance == distance
    ensures var ins := route.instructions; var d := JavaIntCast(distance);
      && |ins| == (if d > SPLIT_THRESHOLD then 3 else 2)
      && EndsInArrival(ins)
      && ins[|ins| - 1].description == ArrivalText(destination)
      && LegTotal(ins) == d
      && ins[0].direction == Straight
      && ins[0].description == StraightText(ins[0].distanceMeters)
      && (0.0 <= distance ==> forall i :: 0 <= i < |ins| ==> ins[i].distanceMeters >= 0)
      && (d > SPLIT_THRESHOLD ==>
            && ins[1].direction == TurnFromBearing(bearing)
            && ins[1].description == TurnText(ins[1].direction, ins[1].distanceMeters)
            && 0 <= ins[1].distanceMeters - ins[0].distanceMeters <= 1)
  {
    var d := JavaIntCast(distance);
    var direction := TurnFromBearing(bearing);
    var legs :=
      if d > SPLIT_THRESHOLD then
        var first := d / 2;
        [NavigationInstruction(Straight, first, StraightText(first)),
         NavigationInstruction(direction, d - first, TurnText(direction, d - first))]
      else
        [NavigationInstruction(Straight, d, StraightText(d))];
    var ins := legs + [NavigationInstruction(Arrived, 0, ArrivalText(destination))];
    assert LegTotal(ins[|ins| - 1..]) == 0;
    assert |ins| == 3 ==> LegTotal(ins[1..]) == ins[1].distanceMeters;
    Route(start, destination, ins, distance)
  }

  /** A 133.4 m route: 133 whole metres, split into 66 m straight on and 67 m in the bearing's direction. */
  lemma SplitExample(start: CampusLocation, destination: CampusLocation, bearing: real)
    ensures var ins := SynthesizedRoute(start, destination, 133.4, bearing).instructions;
      && |ins| == 3
      && ins[0].distanceMeters == 66 && ins[1].distanceMeters == 67 && ins[2].direction == Arrived
  {
    assert JavaIntCast(133.4) == 133;
  }

  /** calculateRoute: builds the instruction list one instruction at a time. */
  method CalculateRoute(start: CampusLocation, destination: CampusLocation, distance: real, bearing: real)
    returns (route: Route)
    ensures route == SynthesizedRoute(start, destination, distance, bearing)
  {
    var instructions: seq<NavigationInstruction> := [];
    var direction := TurnFromBearing(bearing);
    var distanceMeters := JavaIntCast(distance);
    if distanceMeters > SPLIT_THRESHOLD {
      var firstLegDistance := distanceMeters / 2;
      instructions := instructions + [NavigationInstruction(Straight, firstLegDistance, StraightText(firstLegDistance))];
      instructions := instructions + [NavigationInstruction(direction, distanceMeters - firstLegDistance,
                                                            TurnText(direction, distanceMeters - firstLegDistance))];
    } else {
      instructions := instructions + [NavigationInstruction(Straight, distanceMeters, StraightText(distanceMeters))];
    }
    instructions := instructions + [NavigationInstruction(Arrived, 0, ArrivalText(destination))];
    route := Route(start, destination, instructions, distance);
  }
}
