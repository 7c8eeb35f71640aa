/**
 * The navigation screen's tracker state, updated in place: the current route,
 * the instruction cursor and the navigating flag, plus the log of speak requests,
 * in the order they are issued. Each method performs one transition of NavigationSession and says so.
 */
module NavigationActivity {
  import opened Wrappers
  import opened CampusLocations
  import opened Instructions
  import opened Routes
  import opened LocationHelper
  import opened RouteCalculator
  import opened MapManager
  import opened NavigationSession

  class Navigator {
    const campus: Campus
    var currentRoute: Option<Route>
    var currentInstructionIndex: nat
    var isNavigating: bool
    var log: seq<Event>

    function State(): Session
      reads this
    {
      Session(currentRoute, currentInstructionIndex, isNavigating)
    }

    ghost predicate Valid()
      reads this
    {
      Inv(State()) && NonNegative(campus.distance)
    }

    /** A fresh screen: no route, cursor 0, not navigating, no speak request logged. */
    constructor (campus: Campus)
      requires NonNegative(campus.distance)
      ensures Valid()
      ensures this.campus == campus && State() == Idle && log == []
    {
      this.campus := campus;
      currentRoute := None;
      currentInstructionIndex := 0;
      isNavigating := false;
      log := [];
    }

    /** announceNextInstruction: requests speech of the current instruction if there is one; the state is unchanged. */
    method AnnounceNextInstruction()
      modifies this`log
      ensures log == old(log) + AnnounceNext(State())
    {
      if currentRoute.None? || currentInstructionIndex >= |currentRoute.value.instructions| {
        return;
      }
      var instruction := currentRoute.value.instructions[currentInstructionIndex];
      var message;
      if instruction.direction == Arrived {
        message := Description(instruction.description);
      } else {
        message := Formatted(instruction.distanceMeters, instruction.DirectionText());
      }
      log := log + [Announce(message)];
    }

    /** startNavigation: the refusals leave the state alone; a start navigates the new route from instruction 0. */
    method StartNavigation(currentLocation: Option<Coordinate>, selected: Option<CampusLocation>)
      requires Valid()
      modifies this
      ensures Valid()
      ensures var o := Start(campus, old(State()), currentLocation, selected);
        State() == o.session && log == old(log) + o.events
    {
      if currentLocation.None? {
        log := log + [NoLocationError];
        return;
      }
      if selected.None? {
        return;
      }
      var destination := selected.value;
      var fix := currentLocation.value;
      var start := FindNearestLocation(campus.locations, campus.distance, fix.latitude, fix.longitude);
      if start.None? {
        log := log + [NoRouteError];
        return;
      }
      var distance := campus.distance(start.value.latitude, start.value.longitude, destination.latitude, destination.longitude);
      var bearing := CalculateBearing(campus.bearing, start.value.latitude, start.value.longitude, destination.latitude, destination.longitude);
      var route := CalculateRoute(start.value, destination, distance, bearing);
      currentRoute := Some(route);
      currentInstructionIndex := 0;
      isNavigating := true;
      log := log + [NavigationStarted(destination.name)];
      AnnounceNextInstruction();
    }

    /** stopNavigation: back to idle from any state. */
    method StopNavigation()
      requires Valid()
      modifies this
      ensures Valid()
      ensures State() == Stop(old(State())).session && log == old(log) + [StoppedNotice]
    {
      isNavigating := false;
      currentRoute := None;
      currentInstructionIndex := 0;
      log := log + [StoppedNotice];
    }

    /** arriveAtDestination: only the flag changes; route and cursor stay. */
    method ArriveAtDestination()
      requires Valid()
      modifies this`isNavigating, this`log
      ensures Valid()
      ensures State() == Arrive(old(State())).session && log == old(log) + [ArrivedNotice]
    {
      isNavigating := false;
      log := log + [ArrivedNotice];
    }

    /** updateNavigationProgress: arrival first, otherwise at most one step of the cursor. */
    method UpdateNavigationProgress(fix: Coordinate)
      requires Valid()
      modifies this`currentInstructionIndex, this`isNavigating, this`log
      ensures Valid()
      ensures var o := Progress(old(State()), campus.distance, fix);
        State() == o.session && log == old(log) + o.events
    {
      ProgressKeepsInv(State(), campus.distance, fix);
      if currentRoute.None? || currentInstructionIndex >= |currentRoute.value.instructions| {
        return;
      }
      var route := currentRoute.value;
      var distanceToDestination := campus.distance(fix.latitude, fix.longitude,
                                                   route.destination.latitude, route.destination.longitude);
      if distanceToDestination < ARRIVAL_THRESHOLD {
        ArriveAtDestination();
        return;
      }
      var currentInstruction := route.instructions[currentInstructionIndex];
      if distanceToDestination < currentInstruction.distanceMeters as real * 0.5 {
        currentInstructionIndex := currentInstructionIndex + 1;
        if currentInstructionIndex < |route.instructions| {
          AnnounceNextInstruction();
        }
      }
    }

    /** updateCurrentLocation: the location callback forwards a fix only while navigating a route. */
    method UpdateCurrentLocation(fix: Coordinate)
      requires Valid()
      modifies this`currentInstructionIndex, this`isNavigating, this`log
      ensures Valid()
      ensures var o := LocationUpdate(campus, old(State()), fix);
        State() == o.session && log == old(log) + o.events
    {
      if isNavigating && currentRoute.Some? {
        UpdateNavigationProgress(fix);
      }
    }

    /** One run of the periodic update: progress is checked while navigating with a known position. */
    method NavigationTick(currentLocation: Option<Coordinate>)
      requires Valid()
      modifies this`currentInstructionIndex, this`isNavigating, this`log
      ensures Valid()
      ensures var o := Tick(campus, old(State()), currentLocation);
        State() == o.session && log == old(log) + o.events
    {
      if isNavigating && currentLocation.Some? {
        UpdateNavigationProgress(currentLocation.value);
      }
    }
  }
}
