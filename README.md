# Campus navigation core, modelled in Dafny

This project models the decision logic of an Android app that speaks campus
walking directions to visually impaired users. It covers:

- **Route synthesis.** A straight-line distance and a bearing between two campus
  locations become two or three instructions. Distances over 100 whole metres are
  split into a straight leg of `d/2` and a turn leg of `d - d/2`. A terminal
  ARRIVED instruction is always added.
- **Bearing tables.** The raw atan2 azimuth (in [-180, 180]) is normalised with
  `(b + 360) % 360` into [0, 360). The route calculator's own table classifies
  the normalised bearing into a turn. `LocationHelper.getDirectionFromBearing`
  is a second table, from a bearing to a cardinal point, that no code in the
  app calls; `TurnAgreesWithCardinal` relates the two.
- **Nearest-location search.** The registry is scanned for the closest location,
  with `Double.MAX_VALUE` as the starting bound.
- **Progress tracker.** The navigation screen holds the current route, an
  instruction cursor and a navigating flag. Start, stop, position fixes and timer
  ticks update them, and each transition appends its speak requests, in order, to a log.

Modules, one per source file: `Instructions`, `CampusLocations`, `Routes`,
`LocationHelper`, `RouteCalculator` and `MapManager`. The tracker is split in two:

- `NavigationSession` states each transition as a function on a `Session` value.
  It proves the invariant for every sequence of commands (`RunKeepsInv`).
- `NavigationActivity.Navigator` is a class that makes the same transitions in
  place. Each method's contract ties its new state and log to those functions,
  and the properties are proved about the functions.

Two helper modules are not source files: `Wrappers` (Option, standing in for
null) and `Decimal` (Java's `int`-to-text conversion and its inverse).

The great-circle distance and the raw bearing are function values of type
`LocationHelper.GreatCircle`, passed in by the caller. The raw bearing stands for
`Math.toDegrees(Math.atan2(y, x))`; `LocationHelper.CalculateBearing` applies the
normalisation of `calculateBearing`'s last line to it, and the route is built
from that normalised value. `MapManager` has a private
copy of the haversine formula; the model uses the same function value for both.
The tracker assumes only that the distance is never negative.

The records `CampusLocation`, `NavigationInstruction` and `Route` become
datatypes. Their getters are the field selectors, so each getter returns its
constructor argument. There are no setters. Nothing is validated: coordinates are
stored as given, and the route's total distance is stored, not recomputed.

Behaviours of the code that are easy to miss, all modelled as written:

- Arrival requests the fixed `arrived` string resource (`ArrivedNotice`). It does
  not name the destination.
- After arrival the route and the cursor are kept; only the navigating flag is
  cleared. A later fix no longer reaches the progress update.
- A start first requests the start notice with the destination's name. Right
  after it requests the announcement of instruction 0: the formatted distance and verb for a leg, the
  description only for ARRIVED.
- A start refused for lack of a position fix or of a nearby location requests an
  error: `NoLocationError` or `NoRouteError`. A missing destination returns
  silently. None of the three changes the state.
- The turn leg's description uses the enum constant's English name
  (`"LEFT 67 米"`, or `"STRAIGHT 67 米"`). The first leg uses `"直行 n 米"`.

## Model

| member | source | states |
|---|---|---|
| `Decimal.IntRoundTrip` | app/src/main/java/com/soundcampus/navigation/RouteCalculator.java:34-46 | the decimal text concatenated into leg descriptions reads back as the same integer, negative values included |
| `Decimal.IntToStringInjective` | app/src/main/java/com/soundcampus/navigation/RouteCalculator.java:34-46 | two leg lengths print the same text exactly when they are equal |
| `CampusLocations.PickerLabels` | app/src/main/java/com/soundcampus/navigation/NavigationActivity.java:69-77 | the destination picker shows one label per location, in list order, each the location's `toString()`, which is its name |
| `Instructions.NavigationInstruction.DirectionText` | app/src/main/java/com/soundcampus/data/NavigationInstruction.java:30-43 | the direction text is one of 左转/右转/直行/到达; the empty default is never returned |
| `Instructions.DirectionTextInjective` | app/src/main/java/com/soundcampus/data/NavigationInstruction.java:31-39 | two instructions have the same direction text if and only if they have the same direction |
| `Instructions.EnumNameInjective` | app/src/main/java/com/soundcampus/navigation/RouteCalculator.java:40 | the enum names used in turn-leg descriptions are pairwise distinct |
| `LocationHelper.Trunc` | app/src/main/java/com/soundcampus/navigation/RouteCalculator.java:27 | rounding toward zero: the result lies within one of the input, on the input's side of zero |
| `LocationHelper.Rem360` | app/src/main/java/com/soundcampus/utils/LocationHelper.java:32 | Java's `% 360` has the dividend's sign, magnitude below 360, and differs from the dividend by whole turns |
| `LocationHelper.NormalizeBearingTurns` | app/src/main/java/com/soundcampus/utils/LocationHelper.java:31-32 | negative bearings above -360 gain one turn; bearings in [0,360) are kept; the change is whole turns |
| `LocationHelper.NormalizeBearing` | app/src/main/java/com/soundcampus/utils/LocationHelper.java:31-32 | every raw bearing above -360, so the whole atan2 range [-180,180], lands in [0,360) |
| `LocationHelper.CalculateBearing` | app/src/main/java/com/soundcampus/utils/LocationHelper.java:22-33 | for a raw azimuth above -360 the bearing is in [0,360); a negative raw azimuth gains exactly one turn, one in [0,360) is returned unchanged |
| `LocationHelper.CardinalFromBearing` | app/src/main/java/com/soundcampus/utils/LocationHelper.java:35-45 | total: exactly one of 北/东/南/西; 北 iff ≥315 or <45 (out-of-range values included), 东 iff [45,135), 南 iff [135,225), 西 iff [225,315) |
| `RouteCalculator.JavaIntCast` | app/src/main/java/com/soundcampus/navigation/RouteCalculator.java:27 | the `(int)` cast is the floor for non-negative distances below 2^31, never negative for them; truncation toward zero for every value whose truncation fits in 32 bits, and saturation to `INT32_MAX`/`INT32_MIN` beyond |
| `RouteCalculator.TurnFromBearing` | app/src/main/java/com/soundcampus/navigation/RouteCalculator.java:59-69 | never ARRIVED; RIGHT iff [45,135), LEFT iff [225,315), STRAIGHT iff the forward or the rear quadrant |
| `RouteCalculator.WestwardRawBearingTurnsLeft` | app/src/main/java/com/soundcampus/navigation/RouteCalculator.java:20-25 | a raw azimuth of -90 (due west) is normalised to 270 and classified LEFT |
| `RouteCalculator.TurnAgreesWithCardinal` | app/src/main/java/com/soundcampus/navigation/RouteCalculator.java:59-69 | the turn table and the cardinal table agree: 北/南 to STRAIGHT, 东 to RIGHT, 西 to LEFT |
| `RouteCalculator.SynthesizedRoute` | app/src/main/java/com/soundcampus/navigation/RouteCalculator.java:12-57 | keeps start, destination and the untruncated distance; 3 instructions if d > 100, else 2; ARRIVED with 0 m and "已到达 " + name last and nowhere else; the leg lengths sum to d, are non-negative for a non-negative distance, and differ by 0 or 1 when split; first leg STRAIGHT, turn leg in the bearing's direction; descriptions name their own lengths |
| `RouteCalculator.SplitExample` | app/src/main/java/com/soundcampus/navigation/RouteCalculator.java:27-41 | a 133.4 m distance yields legs of 66 m and 67 m, then ARRIVED |
| `RouteCalculator.CalculateRoute` | app/src/main/java/com/soundcampus/navigation/RouteCalculator.java:12-57 | the list built by appending one instruction at a time is the synthesized route |
| `MapManager.ScanNearestIsFirstMinimum` | app/src/main/java/com/soundcampus/navigation/MapManager.java:75-89 | the kept distance is at most every location's and at most the bound; no result iff every distance is at or above `Double.MAX_VALUE` (so for an empty list); otherwise the result is the first location of least distance |
| `MapManager.FirstNearestIsUnique` | app/src/main/java/com/soundcampus/navigation/MapManager.java:80-85 | with the strict test only one index can be the first minimum |
| `MapManager.FindNearestLocation` | app/src/main/java/com/soundcampus/navigation/MapManager.java:75-89 | the loop returns null exactly when no location is closer than the bound, otherwise a list element at the first minimal distance; the list is a value and is not changed |
| `NavigationSession.AnnouncementFor` | app/src/main/java/com/soundcampus/navigation/NavigationActivity.java:227-236 | ARRIVED is spoken by its description, every other instruction by its distance and direction text |
| `NavigationSession.AnnounceNext` | app/src/main/java/com/soundcampus/navigation/NavigationActivity.java:222-240 | one announcement of the current instruction when the cursor designates one, none otherwise |
| `NavigationSession.Stop` | app/src/main/java/com/soundcampus/navigation/NavigationActivity.java:165-179 | from any session: no route, index 0, not navigating, one stop notice |
| `NavigationSession.Arrive` | app/src/main/java/com/soundcampus/navigation/NavigationActivity.java:242-253 | navigation ends with one arrival notice; route and index are unchanged |
| `NavigationSession.Progress` | app/src/main/java/com/soundcampus/navigation/NavigationActivity.java:195-220 | no-op without a current instruction; route never changes; below 10 m it arrives whatever the index; otherwise the index rises by exactly one iff the distance is below half the current leg, never more; an advance announces the instruction then designated, if any; a silent tick emits nothing |
| `NavigationSession.RouteTurnFollowsRawBearing` | app/src/main/java/com/soundcampus/navigation/RouteCalculator.java:20-25 | for a split route the turn leg, read off the raw atan2 azimuth: LEFT for [-135,-45), RIGHT for [45,135), STRAIGHT for the forward [-45,45) and the rear [-180,-135) ∪ [135,180] |
| `NavigationSession.Start` | app/src/main/java/com/soundcampus/navigation/NavigationActivity.java:126-163 | no fix: error, state untouched; no destination: nothing; no nearest location: error, state untouched; else the route from the nearest location, index 0, navigating, start notice then announcement of instruction 0 |
| `NavigationSession.LocationUpdate` | app/src/main/java/com/soundcampus/navigation/NavigationActivity.java:100-124 | a fix reaches the progress update only while navigating with a route; otherwise nothing changes |
| `NavigationSession.Tick` | app/src/main/java/com/soundcampus/navigation/NavigationActivity.java:181-193 | the periodic update runs progress only while navigating with a known position |
| `NavigationSession.StartKeepsInv` | app/src/main/java/com/soundcampus/navigation/NavigationActivity.java:150-152 | a start keeps the invariant: a synthesized route ends in its arrival and index 0 is inside it |
| `NavigationSession.ProgressKeepsInv` | app/src/main/java/com/soundcampus/navigation/NavigationActivity.java:212-219 | with a non-negative distance the cursor never passes the ARRIVED entry, whose 0 m makes the advance test impossible |
| `NavigationSession.ProgressKeepsBounded` | app/src/main/java/com/soundcampus/navigation/NavigationActivity.java:195-220 | for any distance function, 0 ≤ index ≤ number of instructions is kept |
| `NavigationSession.ApplyKeepsInv` | app/src/main/java/com/soundcampus/navigation/NavigationActivity.java:100-220 | every single input (start, stop, fix, tick) keeps the invariant |
| `NavigationSession.RunKeepsInv` | app/src/main/java/com/soundcampus/navigation/NavigationActivity.java:100-220 | every session reachable by any sequence of inputs satisfies the invariant |
| `NavigationSession.StopIdempotent` | app/src/main/java/com/soundcampus/navigation/NavigationActivity.java:165-168 | stopping twice gives the same state as stopping once |
| `NavigationSession.StoppedIgnoresUpdates` | app/src/main/java/com/soundcampus/navigation/NavigationActivity.java:120-122 | after a stop, fixes and ticks change nothing and say nothing |
| `NavigationSession.ArrivalIgnoresIndex` | app/src/main/java/com/soundcampus/navigation/NavigationActivity.java:207-210 | a navigating fix closer than 10 m ends navigation with exactly one arrival notice, keeping index and route |
| `NavigationSession.StepsBoundedByUpdates` | app/src/main/java/com/soundcampus/navigation/NavigationActivity.java:212-219 | over n fixes the cursor advances at most n instructions and the route is unchanged |
| `NavigationActivity.Navigator.constructor` | app/src/main/java/com/soundcampus/navigation/NavigationActivity.java:33-36 | a new screen is idle: no route, index 0, not navigating, no speak request logged |
| `NavigationActivity.Navigator.AnnounceNextInstruction` | app/src/main/java/com/soundcampus/navigation/NavigationActivity.java:222-240 | appends the announcement of the current instruction, if any, and changes nothing else |
| `NavigationActivity.Navigator.StartNavigation` | app/src/main/java/com/soundcampus/navigation/NavigationActivity.java:126-163 | the fields and the log after the call are those of the start transition; the invariant is kept |
| `NavigationActivity.Navigator.StopNavigation` | app/src/main/java/com/soundcampus/navigation/NavigationActivity.java:165-179 | fields reset to idle, a stop notice appended |
| `NavigationActivity.Navigator.ArriveAtDestination` | app/src/main/java/com/soundcampus/navigation/NavigationActivity.java:242-253 | only the navigating flag is cleared; an arrival notice is appended |
| `NavigationActivity.Navigator.UpdateNavigationProgress` | app/src/main/java/com/soundcampus/navigation/NavigationActivity.java:195-220 | the in-place update, including `currentInstructionIndex++`, equals the progress transition; the invariant is kept |
| `NavigationActivity.Navigator.UpdateCurrentLocation` | app/src/main/java/com/soundcampus/navigation/NavigationActivity.java:100-124 | forwards the fix only while navigating with a route |
| `NavigationActivity.Navigator.NavigationTick` | app/src/main/java/com/soundcampus/navigation/NavigationActivity.java:181-193 | one timer run checks progress only while navigating with a known position |

## Left out

- Haversine distance and trigonometric bearing (`LocationHelper.calculateDistance`, lines 23-31 of `calculateBearing` up to the atan2 azimuth in degrees, `MapManager.calculateDistance`): floating-point trigonometry. They are function values supplied by the caller; the normalisation on `calculateBearing`'s last line is modelled by `CalculateBearing`.
- `RouteCalculator.formatDistance`: it rests on `String.format` rounding of doubles, and nothing in the core calls it.
- Floating point in general: reals stand for doubles. NaN, infinities and rounding are not modelled. This covers `b + 360` rounding to exactly 360, NaN in the `(int)` cast, and NaN in the `<` comparisons.
- `LocationHelper.CardinalFromBearing` and `RouteCalculator.TurnFromBearing` give 西/LEFT for a NaN bearing in Java: every comparison is false, so both chains fall through to their final `else`. The model has no NaN.
- `NavigationSession.ProgressKeepsInv`: it assumes the distance function never returns a negative value, as the haversine formula promises. Without that assumption only `ProgressKeepsBounded` (the index stays at most the instruction count) is proved.
- Timer plumbing: the 5 s `postDelayed`/`removeCallbacks` loop is not modelled. Each run of the runnable is an explicit `NavigationTick` call. The model does not capture that a failed tick stops the polling.
- Speech playback: each `speak` flushes the text-to-speech queue, so a request cuts off any message still playing. At a start the start notice is cut off by the announcement of instruction 0; the log keeps both requests. Requests made before text-to-speech has finished initialising are dropped by `speak`; the log records them all.
- UI side effects: button visibility, `setText` of the status and current-location views (including the nearest-location text in `updateCurrentLocation`), Toasts, and the title spoken in `onCreate`. The `onDestroy` clean-up is left out too. Spoken strings are opaque `Event` values, and `instruction_format` becomes `Message.Formatted`.
- Location tracking (`LocationTracker`): the current fix is an `Option<Coordinate>` input. `hasLocation()` is whether it is present.
- SQLite: `getAllLocations`, `getLocationById`, `close` and the database schema are left out. The registry is the `Campus.locations` sequence, and the `routes` table is never read by the route logic.
- Aliasing: `Route` keeps its instruction list by reference in Java. Here it is a sequence value. Nothing mutates the list after construction.
- Null record fields (a null name or id) are not modelled. Strings are always present.
- Camera, OCR, text-to-speech, permissions and the main menu are outside this core.
