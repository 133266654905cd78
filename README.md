# Vehicle dragger model

A Dafny model of the vehicle drag tool of the OpenRCT2 Ride Vehicle Editor
plugin (`src/services/vehicleDragger.ts`) and of the coordinate equality it
uses (`src/utilities/coords.ts`). The tool picks up a ride vehicle's car,
previews it at the tile under the pointer (free-floating or snapped to track),
and on a click commits the placement or, when closed otherwise, reverts it.
Every preview, commit and revert goes through the `rve-drag-car` game action,
whose handler moves the car.

Files:

- `wrappers.dfy`: `Option`, for TypeScript's `null` and `undefined`.
- `coords.dfy` (module `Coords`): `CoordsXY`, `CoordsXYZ`, `CarTrackLocation`
  and `equalCoordsXYZ`.
- `vehicle_dragger.dfy` (module `VehicleDragger`): the position resolver
  `getPositionFromTool` as the function `GetPositionFromTool`, with its
  height rules split into `ElementZ`, `SurfaceZ` and `TabHeightCorrection`.
  It also holds `alignWithMap`, the command types `DragState`, `DragPosition`
  and `DragVehicleArgs`, the drag session, the activation
  `ToggleVehicleDragger` and the commit handler.

The closures that `toggleVehicleDragger` registers share the variables they
capture. They are modelled twice. The class `DragTool` has those variables as
fields and one method per closure. The pure functions `AfterMove`, `AfterDown`
and `AfterFinish` give the same steps on a `Session` value. Each method's
postcondition ties `State()` to the matching function of the old state. The
lemmas about whole drags are then stated over `Session` values.

The host effects are fields of the session:
- `commands` records the payloads handed to `execute`;
- `tiles` is `ui.tileSelection.tiles`;
- `cancelCalls` counts calls of the caller's `onCancel`.

The tool's `onDown` calls `cancelCurrentTool()`, and the host answers that
with `onFinish`. `DragTool.OnDown` therefore ends by running `OnFinish`.

The commit handler `updateVehicleDrag` is `Park.UpdateVehicleDrag`:
- `Park.cars` stands for `getCarById`;
- `Park.refreshed` records the `refreshVehicle` events;
- `Car.travels` records the progress passed to
  `travelBy(getDistanceFromProgress(car, progress))`.

The collaborators the source calls are parameters:
- the tile lookup and track iterator are the two functions of `MapView`;
- the tick count is a parameter of each move;
- the multiplayer flag and the vehicle with its type are given at activation;
- so are the stored position, track location and progress.

Two details of the acceptance test in `onMove` (`vehicleDragger.ts:63-64`
with `coords.ts:9-11`) matter:
- A track candidate is compared with the last track location on x, y and z
  only. Direction and track type are never compared.
- A track candidate is accepted whenever there is no last track location,
  because `equalCoordsXYZ(_, null)` is false.

`TrackCandidateAtSamePointIgnored` and
`TrackCandidateAfterFreePlacementAccepted` state the code's behaviour in
these two cases.

## Model

| member | source | states |
|---|---|---|
| Coords.EqualCoordsXYZ | src/utilities/coords.ts:3-12 | false when the second point is null; otherwise true exactly when the second point is the first (same x, y, z) |
| Coords.EqualCoordsReflexive | src/utilities/coords.ts:9-11 | every point equals itself |
| Coords.EqualCoordsSymmetric | src/utilities/coords.ts:9-11 | the comparison of two non-null points does not depend on their order |
| Coords.TrackLocationsCompareByXyzOnly | src/utilities/coords.ts:9-11 | two track locations compare equal exactly when x, y and z agree; changing direction or track type never changes the answer |
| Coords.DistinctTrackLocationsCompareEqual | src/utilities/coords.ts:9-11 | two different track locations (opposite directions on one spot) compare equal |
| VehicleDragger.ElementZ | src/services/vehicleDragger.ts:156-157 | footpaths, banners, walls and track offer their base height; surfaces, small and large scenery and entrances offer their clearance height |
| VehicleDragger.SurfaceZ | src/services/vehicleDragger.ts:159-171 | only surfaces are adjusted; a surface's height is never below its water or its own height; it is the water level when that is strictly higher; otherwise it is the element's height plus exactly 8 when sloped and plus 0 when flat |
| VehicleDragger.TabHeightOf | src/services/vehicleDragger.ts:154 | a missing vehicle type counts as tab height 0; otherwise the type's tab height |
| VehicleDragger.TabHeightCorrection | src/services/vehicleDragger.ts:187-189 | the correction lies in [0, 29]: exactly 29 for a tab height below -10, the negated tab height in [-10, 0), and 0 exactly for non-negative tab heights |
| VehicleDragger.TabHeightCorrectionAntitone | src/services/vehicleDragger.ts:189 | a lower tab height never gets a smaller correction |
| VehicleDragger.TabHeightCorrectionExamples | src/services/vehicleDragger.ts:189 | tab heights -20, -5, 0 and 10 get corrections 29, 5, 0 and 0 |
| VehicleDragger.TrackLocationFrom | src/services/vehicleDragger.ts:174-184 | a track location exists exactly when the iterator yields a point; it is that point moved back by 16 on x and y, with the element's direction and track type |
| VehicleDragger.GetPositionFromTool | src/services/vehicleDragger.ts:135-196 | no tile or no element index gives (null, null); otherwise the tile point is the tile centre (+16 on x and y) at the element's surface-adjusted height plus the tab correction (0 for a missing vehicle type); a track location exists exactly when the element is track and an iterator exists, and is built from the iterator |
| VehicleDragger.TrackLocationHasNoTabCorrection | src/services/vehicleDragger.ts:173-189 | a resolved track location has the iterator's height, while the tile point has the track element's base height plus the tab correction |
| VehicleDragger.FootpathScenario | src/services/vehicleDragger.ts:148-171 | a footpath at height 48 on tile (200, 200) resolves to (216, 216, 48) with no track location |
| VehicleDragger.AlignWithMap | src/services/vehicleDragger.ts:241-244 | the result is a multiple of 32 with result <= coordinate < result + 32 |
| VehicleDragger.AlignWithMapUnique | src/services/vehicleDragger.ts:241-244 | that multiple of 32 is the only one with this property |
| VehicleDragger.AlignWithMapIdempotent | src/services/vehicleDragger.ts:241-244 | aligning an aligned coordinate changes nothing |
| VehicleDragger.AlignWithMapExamples | src/services/vehicleDragger.ts:241-244 | 0, 31, 32, 63 and 64 align to 0, 0, 32, 32 and 64 |
| VehicleDragger.Started | src/services/vehicleDragger.ts:38-50 | a new session is marked for revert, has issued nothing, and its last position and track location are the originals |
| VehicleDragger.Throttled | src/services/vehicleDragger.ts:57-61 | outside multiplayer no move is throttled; in multiplayer a move is throttled exactly on ticks not divisible by 5 |
| VehicleDragger.Accepts | src/services/vehicleDragger.ts:63-64 | only a candidate with a tile point is accepted; a candidate without a track location is accepted exactly when its tile point differs from the last position |
| VehicleDragger.AcceptsCharacterised | src/services/vehicleDragger.ts:63-64 | a candidate is accepted exactly when it has a tile point and, if it has a track location, there was no last one or its x/y/z differ from the last one's; without a track location, exactly when its tile point differs from the last |
| VehicleDragger.AfterMove | src/services/vehicleDragger.ts:55-76 | a move changes the session exactly when it is not throttled (multiplayer on a tick not divisible by 5) and its candidate is accepted. An accepted move issues one Dragging command for the candidate with null progress, selects exactly the aligned tile of the candidate, and makes the candidate the last position. The revert flag, the onCancel count and the activation's constants never change |
| VehicleDragger.AfterDown | src/services/vehicleDragger.ts:77-86 | clears revert and issues one Complete command carrying the last position and track location with null progress; nothing else changes |
| VehicleDragger.AfterFinish | src/services/vehicleDragger.ts:88-101 | issues one Cancel command exactly when revert is still set; always clears the tile selection and counts one onCancel call |
| VehicleDragger.CancelCommand | src/services/vehicleDragger.ts:90-97 | the revert command is tagged Cancel and carries the original point, track location and track progress |
| VehicleDragger.MovesOnlyPreview | src/services/vehicleDragger.ts:55-76 | any sequence of moves only appends Dragging previews: earlier commands, the terminal commands, the revert flag, the onCancel count and the activation's constants are kept |
| VehicleDragger.ConfirmedDragCompletesOnce | src/services/vehicleDragger.ts:77-101 | activation, any moves, then a click yields exactly one terminal command, Complete with the last accepted candidate and null progress, as the last command; the selection ends empty and onCancel ran once |
| VehicleDragger.UnconfirmedDragCancelsOnce | src/services/vehicleDragger.ts:88-101 | activation, any moves, then closing the tool yields exactly one terminal command, Cancel with the original point, track location and progress whatever was previewed; the selection ends empty and onCancel ran once |
| VehicleDragger.RepeatedMoveIsSuppressed | src/services/vehicleDragger.ts:63-74 | once a move has been previewed, the same move again changes nothing, on any tick |
| VehicleDragger.TrackCandidateAtSamePointIgnored | src/services/vehicleDragger.ts:63 | a track candidate whose x/y/z match the last track location is ignored, even when its direction, track type or tile point differ |
| VehicleDragger.TrackCandidateAfterFreePlacementAccepted | src/services/vehicleDragger.ts:63 | an unthrottled track candidate is always accepted when there is no last track location |
| VehicleDragger.DragTool.constructor | src/services/vehicleDragger.ts:38-50 | the tool's state is the started session |
| VehicleDragger.DragTool.UpdateCarPosition | src/services/vehicleDragger.ts:201-204 | appends exactly one payload for this car with the given placement and state to the execute log |
| VehicleDragger.DragTool.OnMove | src/services/vehicleDragger.ts:55-76 | the new state is AfterMove of the old one |
| VehicleDragger.DragTool.OnDown | src/services/vehicleDragger.ts:77-87 | the new state is AfterFinish of AfterDown of the old one (onDown followed by the onFinish that closing the tool triggers) |
| VehicleDragger.DragTool.OnFinish | src/services/vehicleDragger.ts:88-101 | the new state is AfterFinish of the old one |
| VehicleDragger.ToggleVehicleDragger | src/services/vehicleDragger.ts:24-51 | no tool is started exactly when the button is not pressed or no vehicle is selected; otherwise a fresh tool in the started session |
| VehicleDragger.FreePlacementScenario | src/services/vehicleDragger.ts:55-87 | a car off track at (100, 100, 50), dragged over a footpath at height 48 on tile (200, 200) and confirmed, issues a Dragging and then a Complete command; replayed through the commit handler (lines 209-236) they leave the car at (216, 216, 48) with two refreshes for its id |
| VehicleDragger.ProgressOrOne | src/services/vehicleDragger.ts:226-232 | the given progress, or 1 when none is given |
| VehicleDragger.Car.TravelToProgress | src/services/vehicleDragger.ts:227-231 | records exactly one travel request for the given progress |
| VehicleDragger.Park.UpdateVehicleDrag | src/services/vehicleDragger.ts:209-236 | a target with no car changes nothing and announces no refresh. Without a track location, the car's x, y, z become the tile point and its track location and travels are untouched. With one, the track location is assigned and exactly one travel to the given progress (1 if null) is recorded. Whenever the car exists, one refresh for the target is announced. The drag state is ignored |

## Left out

- VehicleDragger.Park.UpdateVehicleDrag: says nothing of the car's x, y, z after `travelBy`, because `car.travelBy` and `getDistanceFromProgress` are game code that is not part of this model. The model records the requested progress in `Car.travels` instead of a distance.
- The commented-out entity hit-test branch of `getPositionFromTool` and the commented-out debug line are dead code.
- `register`/`execute` and the network replication of the action are not modelled. `execute` appends to the session's command log. The log is not fed to the handler automatically; `FreePlacementScenario` replays a log through `Park.UpdateVehicleDrag` by hand.
- The values read from the stores become parameters of the activation. The tool id and the cursor are not modelled. `cancelTools` appears only as the `null` result of `ToggleVehicleDragger`. What `cancelTools` does to a drag that is already running is not modelled.
- `rideVehicle[0]._type()` is called on every move in the source. The model reads the vehicle type once, at activation.
- The host's tool protocol is assumed: `onFinish` runs synchronously from `cancelCurrentTool`, and no event arrives after `onFinish`. The model does not track whether the tool is still active.
- `floor` in `alignWithMap` is taken to round towards minus infinity. `src/utilities/math.ts` is not part of this model. Map coordinates are non-negative in the game, so truncation would give the same results there.
- Coordinates, heights, tab heights and track progress are modelled as unbounded integers. JavaScript numbers are doubles, but these values are small integers in the game.
- `tests/objects/parkRide.tests.ts` tests `getAllRides` and `ParkRide`. Their source is not part of this model.
