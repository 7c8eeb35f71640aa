/**
 * The navigation progress tracker as a state machine on values: the active
 * route, the cursor into its instructions and the navigating flag, with the
 * events each transition announces. The class in NavigationActivity performs
 * these transitions in place; this module states them and proves what they keep.
 */
module NavigationSession {
  import opened Wrappers
  import opened CampusLocations
  import opened Instructions
  import opened Routes
  import opened LocationHelper
  import opened RouteCalculator
  import opened MapManager

  /** An arrival closer than this many metres to the destination ends navigation. */
  const ARRIVAL_THRESHOLD: real := 10.0

  /** The text requested for an instruction: its own text for the arrival, else the formatted distance and verb. */
  datatype Message = Description(text: string) | Formatted(distanceMeters: int, directionText: string)

  /** The speak requests, in the order they are issued; string resources are opaque tokens. */
  datatype Event =
    | NoLocationError
    | NoRouteError
    | NavigationStarted(destinationName: string)
    | Announce(message: Message)
    | ArrivedNotice
    | StoppedNotice

  datatype Session = Session(route: Option<Route>, index: nat, navigating: bool)

  datatype Outcome = Outcome(session: Session, events: seq<Event>)

  /**
   * The external services the tracker consults: the location registry, the
   * haversine distance, and the raw atan2 azimuth in degrees that
   * calculateBearing normalises before the route calculator classifies it.
   */
  datatype Campus = Campus(locations: seq<CampusLocation>, distance: GreatCircle, bearing: GreatCircle)

  const Idle: Session := Session(None, 0, false)

  /**
   * The tracker's invariant: without a route it is idle at index 0; with a route
   * the route ends in its ARRIVED instruction and the cursor has not passed it.
   * A session is navigating only while it holds a route.
   */
  predicate Inv(s: Session) {
    && (s.route.None? ==> s.index == 0 && !s.navigating)
    && (s.route.Some? ==> EndsInArrival(s.route.value.instructions) && s.index < |s.route.value.instructions|)
  }

  /** The bound that holds whatever the distance function: 0 <= index <= number of instructions. */
  predicate Bounded(s: Session) {
    && (s.route.None? ==> s.index == 0 && !s.navigating)
    && (s.route.Some? ==> s.index <= |s.route.value.instructions|)
  }

  /** Whether the cursor designates an instruction of the route. */
  predicate InRange(s: Session) {
    s.route.Some? && s.index < |s.route.value.instructions|
  }

  /** The message for one instruction: the arrival is spoken by its description, every other leg by distance and verb. */
  function AnnouncementFor(ins: NavigationInstruction): (m: Message)
    ensures m.Description? <==> ins.direction == Arrived
    ensures m.Description? ==> m.text == ins.description
    ensures m.Formatted? ==> m.distanceMeters == ins.distanceMeters && m.directionText == ins.DirectionText()
  {
    if ins.direction == Arrived then Description(ins.description)
    else Formatted(ins.distanceMeters, ins.DirectionText())
  }

  /** announceNextInstruction: requests speech of the current instruction, or nothing when there is none. */
  function AnnounceNext(s: Session): (events: seq<Event>)
    ensures |events| <= 1
    ensures |events| == 1 <==> InRange(s)
    ensures InRange(s) ==> events == [Announce(AnnouncementFor(s.route.value.instructions[s.index]))]
  {
    if s.route.None? || s.index >= |s.route.value.instructions| then []
    else [Announce(AnnouncementFor(s.route.value.instructions[s.index]))]
  }

  /** stopNavigation: from any session back to idle, announcing the stop. */
  function Stop(s: Session): (r: Outcome)
    ensures r.session.route.None? && r.session.index == 0 && !r.session.navigating
    ensures r.events == [StoppedNotice]
  {
    Outcome(Idle, [StoppedNotice])
  }

  /** arriveAtDestination: navigation ends; the route and the cursor are kept as they were. */
  function Arrive(s: Session): (r: Outcome)
    ensures r.session.route == s.route && r.session.index == s.index && !r.session.navigating
    ensures r.events == [ArrivedNotice]
  {
    Outcome(s.(navigating := false), [ArrivedNotice])
  }

  function DistanceToDestination(route: Route, distance: GreatCircle, fix: Coordinate): real {
    distance(fix.latitude, fix.longitude, route.destination.latitude, route.destination.longitude)
  }

  /** The arrival test, made on the current fix whenever there is a current instruction. */
  predicate Arrives(s: Session, distance: GreatCircle, fix: Coordinate) {
    InRange(s) && DistanceToDestination(s.route.value, distance, fix) < ARRIVAL_THRESHOLD
  }

  /** The advance test: closer to the destination than half of the current leg. */
  predicate Advances(leg: NavigationInstruction, remaining: real) {
    remaining < leg.distanceMeters as real * 0.5
  }

  /**
   * updateNavigationProgress for one position fix. Nothing happens without a
   * current instruction. Closer than the threshold, the session arrives and the
   * instructions are not consulted. Otherwise the cursor moves by exactly one
   * when the fix is within half of the current leg, never further, and the
   * instruction it then designates, if any, is announced.
   */
  function Progress(s: Session, distance: GreatCircle, fix: Coordinate): (r: Outcome)
    ensures !InRange(s) ==> r == Outcome(s, [])
    ensures r.session.route == s.route
    ensures s.index <= r.session.index <= s.index + 1
    ensures Arrives(s, distance, fix) ==> r == Arrive(s)
    ensures r.session.navigating == (s.navigating && !Arrives(s, distance, fix))
    ensures r.session.index == s.index + 1 <==>
              && InRange(s) && !Arrives(s, distance, fix)
              && Advances(s.route.value.instructions[s.index], DistanceToDestination(s.route.value, distance, fix))
    ensures r.session.index == s.index + 1 ==> r.events == AnnounceNext(r.session)
    ensures r.session.index == s.index && !Arrives(s, distance, fix) ==> r.events == []
  {
    if !InRange(s) then Outcome(s, [])
    else
      var route := s.route.value;
      var remaining := DistanceToDestination(route, distance, fix);
      if remaining < ARRIVAL_THRESHOLD then Arrive(s)
      else if Advances(route.instructions[s.index], remaining) then
        var next := s.(index := s.index + 1);
        Outcome(next, AnnounceNext(next))
      else Outcome(s, [])
  }

  /** The nearest registry location to a position fix. */
  function NearestTo(c: Campus, fix: Coordinate): Option<CampusLocation> {
    ScanNearest(c.locations, c.distance, fix.latitude, fix.longitude).nearest
  }

  function RouteBetween(c: Campus, start: CampusLocation, destination: CampusLocation): Route {
    SynthesizedRoute(start, destination,
                     c.distance(start.latitude, start.longitude, destination.latitude, destination.longitude),
                     CalculateBearing(c.bearing, start.latitude, start.longitude, destination.latitude, destination.longitude))
  }

  /**
   * The turn of a split route, read off the raw azimuth in atan2's range
   * [-180, 180]: after normalisation, westward azimuths turn left, eastward ones
   * turn right, and both the forward and the rear quadrant are straight on.
   */
  lemma RouteTurnFollowsRawBearing(c: Campus, start: CampusLocation, destination: CampusLocation)
    requires JavaIntCast(c.distance(start.latitude, start.longitude, destination.latitude, destination.longitude)) > SPLIT_THRESHOLD
    ensures var raw := c.bearing(start.latitude, start.longitude, destination.latitude, destination.longitude);
      var turn := RouteBetween(c, start, destination).instructions[1].direction;
      && (-135.0 <= raw < -45.0 ==> turn == Left)
      && (45.0 <= raw < 135.0 ==> turn == Right)
      && ((-180.0 <= raw < -135.0 || -45.0 <= raw < 45.0 || 135.0 <= raw <= 180.0) ==> turn == Straight)
  {
  }

  /**
   * startNavigation. Without a position fix it reports that no location is known;
   * without a selected destination it does nothing; without a registry location
   * near the fix it reports that there is no route. In those three cases the
   * session is untouched. Otherwise it navigates the route from the nearest
   * location to the destination from its first instruction, which it announces
   * after the start notice.
   */
  function Start(c: Campus, s: Session, current: Option<Coordinate>, selected: Option<CampusLocation>): (r: Outcome)
    ensures current.None? ==> r == Outcome(s, [NoLocationError])
    ensures current.Some? && selected.None? ==> r == Outcome(s, [])
    ensures current.Some? && selected.Some? && NearestTo(c, current.value).None? ==> r == Outcome(s, [NoRouteError])
    ensures current.Some? && selected.Some? && NearestTo(c, current.value).Some? ==>
              && r.session == Session(Some(RouteBetween(c, NearestTo(c, current.value).value, selected.value)), 0, true)
              && r.events == [NavigationStarted(selected.value.name), Announce(AnnouncementFor(r.session.route.value.instructions[0]))]
  {
    if current.None? then Outcome(s, [NoLocationError])
    else if selected.None? then Outcome(s, [])
    else
      var start := NearestTo(c, current.value);
      if start.None? then Outcome(s, [NoRouteError])
      else
        var next := Session(Some(RouteBetween(c, start.value, selected.value)), 0, true);
        Outcome(next, [NavigationStarted(selected.value.name)] + AnnounceNext(next))
  }

  /** updateCurrentLocation: a fix reaches the progress update only while navigating a route. */
  function LocationUpdate(c: Campus, s: Session, fix: Coordinate): (r: Outcome)
    ensures !(s.navigating && s.route.Some?) ==> r == Outcome(s, [])
    ensures s.navigating && s.route.Some? ==> r == Progress(s, c.distance, fix)
  {
    if s.navigating && s.route.Some? then Progress(s, c.distance, fix) else Outcome(s, [])
  }

  /** One tick of the periodic update: runs the progress update while navigating with a known position. */
  function Tick(c: Campus, s: Session, current: Option<Coordinate>): (r: Outcome)
    ensures !(s.navigating && current.Some?) ==> r == Outcome(s, [])
    ensures s.navigating && current.Some? ==> r == Progress(s, c.distance, current.value)
  {
    if s.navigating && current.Some? then Progress(s, c.distance, current.value) else Outcome(s, [])
  }

  /** The inputs that drive the tracker: the two buttons, location callbacks and timer ticks. */
  datatype Command =
    | StartCommand(current: Option<Coordinate>, selected: Option<CampusLocation>)
    | StopCommand
    | LocationCommand(fix: Coordinate)
    | TickCommand(current: Option<Coordinate>)

  function Apply(c: Campus, s: Session, cmd: Command): Outcome {
    match cmd
    case StartCommand(current, selected) => Start(c, s, current, selected)
    case StopCommand => Stop(s)
    case LocationCommand(fix) => LocationUpdate(c, s, fix)
    case TickCommand(current) => Tick(c, s, current)
  }

  /** The session after a sequence of commands, and every event they produced, in order. */
  function Run(c: Campus, s: Session, cmds: seq<Command>): Outcome
    decreases |cmds|
  {
    if cmds == [] then Outcome(s, [])
    else
      var first := Apply(c, s, cmds[0]);
      var rest := Run(c, first.session, cmds[1..]);
      Outcome(rest.session, first.events + rest.events)
  }

  /** Synthesized routes end in their arrival, so a fresh navigation satisfies the invariant. */
  lemma StartKeepsInv(c: Campus, s: Session, current: Option<Coordinate>, selected: Option<CampusLocation>)
    requires Inv(s)
    ensures Inv(Start(c, s, current, selected).session)
  {
  }

  /**
   * With a non-negative distance the cursor never passes the ARRIVED entry: the
   * advance test on it asks for a distance below 0 metres.
   */
  lemma ProgressKeepsInv(s: Session, distance: GreatCircle, fix: Coordinate)
    requires NonNegative(distance)
    requires Inv(s)
    ensures Inv(Progress(s, distance, fix).session)
  {
    if InRange(s) {
      var ins := s.route.value.instructions;
      var remaining := DistanceToDestination(s.route.value, distance, fix);
      assert remaining >= 0.0;
      if s.index == |ins| - 1 {
        assert !Advances(ins[s.index], remaining);
      }
    }
  }

  /** Whatever the distance, the cursor stays within 0 .. number of instructions. */
  lemma ProgressKeepsBounded(s: Session, distance: GreatCircle, fix: Coordinate)
    requires Bounded(s)
    ensures Bounded(Progress(s, distance, fix).session)
  {
  }

  lemma ApplyKeepsInv(c: Campus, s: Session, cmd: Command)
    requires NonNegative(c.distance)
    requires Inv(s)
    ensures Inv(Apply(c, s, cmd).session)
  {
    match cmd
    case StartCommand(current, selected) => StartKeepsInv(c, s, current, selected);
    case StopCommand =>
    case LocationCommand(fix) => ProgressKeepsInv(s, c.distance, fix);
    case TickCommand(current) =>
      if current.Some? { ProgressKeepsInv(s, c.distance, current.value); }
  }

  /** Every reachable session satisfies the invariant, whatever the order of inputs. */
  lemma {:induction false} RunKeepsInv(c: Campus, s: Session, cmds: seq<Command>)
    requires NonNegative(c.distance)
    requires Inv(s)
    ensures Inv(Run(c, s, cmds).session)
    decreases |cmds|
  {
    if cmds != [] {
      ApplyKeepsInv(c, s, cmds[0]);
      RunKeepsInv(c, Apply(c, s, cmds[0]).session, cmds[1..]);
    }
  }

  /** Stopping twice is stopping once. */
  lemma StopIdempotent(s: Session)
    ensures Stop(Stop(s).session).session == Stop(s).session
  {
  }

  /** After a stop, fixes and ticks change nothing until the next start. */
  lemma StoppedIgnoresUpdates(c: Campus, s: Session, fix: Coordinate, current: Option<Coordinate>)
    ensures var idle := Stop(s).session;
      && LocationUpdate(c, idle, fix) == Outcome(idle, [])
      && Tick(c, idle, current) == Outcome(idle, [])
  {
  }

  /**
   * Arrival is decided before the instructions are looked at: any fix closer
   * than the threshold ends navigation with exactly one arrival notice,
   * whatever instruction the cursor is at.
   */
  lemma ArrivalIgnoresIndex(c: Campus, s: Session, fix: Coordinate)
    requires s.navigating && InRange(s)
    requires Arrives(s, c.distance, fix)
    ensures var r := LocationUpdate(c, s, fix);
      && !r.session.navigating && r.session.index == s.index && r.session.route == s.route
      && r.events == [ArrivedNotice]
  {
  }

  /**
   * Over a run of n position fixes the cursor advances by at most n and the
   * route is never replaced: one step per update, never a jump.
   */
  lemma {:induction false} StepsBoundedByUpdates(c: Campus, s: Session, fixes: seq<Coordinate>)
    ensures var r := Run(c, s, seq(|fixes|, i requires 0 <= i < |fixes| => LocationCommand(fixes[i])));
      && r.session.route == s.route
      && s.index <= r.session.index <= s.index + |fixes|
    decreases |fixes|
  {
    var cmds := seq(|fixes|, i requires 0 <= i < |fixes| => LocationCommand(fixes[i]));
    if fixes != [] {
      var first := Apply(c, s, cmds[0]);
      var tail := seq(|fixes| - 1, i requires 0 <= i < |fixes| - 1 => LocationCommand(fixes[1..][i]));
      assert cmds[1..] == tail;
      StepsBoundedByUpdates(c, first.session, fixes[1..]);
    }
  }
}
