/**
 * The vehicle drag tool of src/services/vehicleDragger.ts: the position
 * resolver that turns a tile hit-test into a candidate placement, the drag
 * session that the tool's onMove/onDown/onFinish closures drive, and the
 * commit handler that the "rve-drag-car" action runs on every client.
 *
 * The game's collaborators (tile lookup, track iterator, tick counter,
 * multiplayer flag, car lookup) come in as parameters; what the tool hands
 * to `execute`, to the tile selection and to `onCancel` is recorded in
 * fields of the session.
 */
module VehicleDragger {
  import opened Wrappers
  import opened Coords

  // ---------------------------------------------------------------------
  // Inputs of the position resolver
  // ---------------------------------------------------------------------

  /** The kinds of tile element the game reports. */
  datatype TileElementType =
    | Surface | Footpath | Track | SmallScenery | Wall | Entrance | LargeScenery | Banner

  /**
   * The fields of a tile element that the resolver reads. `slope` is the
   * surface's slope bits (non-zero means sloped); `direction` and
   * `trackType` are meaningful for track elements.
   */
  datatype TileElement = TileElement(
    kind: TileElementType,
    baseZ: int,
    clearanceZ: int,
    waterHeight: int,
    slope: int,
    direction: int,
    trackType: int)

  /** The vehicle type's metadata; only the tab (icon) height is used here. */
  datatype RideObjectVehicle = RideObjectVehicle(tabHeight: int)

  /** A tool event: the tile under the pointer and the index of the element hit on it, each possibly undefined. */
  datatype ToolEventArgs = ToolEventArgs(mapCoords: Option<CoordsXY>, tileElementIndex: Option<nat>)

  /**
   * The map as the resolver sees it: the tile element at a position and
   * index (getTileElement), and the point a track iterator yields there,
   * or null when no iterator can be made (map.getTrackIterator).
   */
  datatype MapView = MapView(
    tileElementAt: (int, int, nat) -> TileElement,
    trackIteratorAt: (int, int, nat) -> Option<CoordsXYZ>)

  /** Offset from a tile's corner to its centre, in map units. */
  const TileCentre := 16

  /** Width of a map tile, in map units. */
  const TileSize := 32

  // ---------------------------------------------------------------------
  // Position resolver (getPositionFromTool)
  // ---------------------------------------------------------------------

  /** Height the element offers: its base for footpaths, banners, walls and track, its clearance for every other kind. */
  function ElementZ(e: TileElement): (z: int)
    ensures e.kind in {Footpath, Banner, Wall, Track} ==> z == e.baseZ
    ensures e.kind in {Surface, SmallScenery, Entrance, LargeScenery} ==> z == e.clearanceZ
  {
    if e.kind == Footpath || e.kind == Banner || e.kind == Wall || e.kind == Track then e.baseZ
    else e.clearanceZ
  }

  /**
   * The element's height after the surface special case: a surface under
   * higher water offers the water level, a sloped surface 8 units more.
   */
  function SurfaceZ(e: TileElement): (z: int)
    ensures e.kind != Surface ==> z == ElementZ(e)
    ensures e.kind == Surface ==> z >= e.waterHeight && z >= ElementZ(e)
    ensures e.kind == Surface && e.waterHeight > ElementZ(e) ==> z == e.waterHeight
    ensures e.kind == Surface && e.waterHeight <= ElementZ(e) ==> z == ElementZ(e) + (if e.slope != 0 then 8 else 0)
  {
    var z := ElementZ(e);
    if e.kind == Surface then
      if e.waterHeight > z then e.waterHeight
      else if e.slope != 0 then z + 8
      else z
    else z
  }

  /** A missing vehicle type counts as tab height 0. */
  function TabHeightOf(vehicleType: Option<RideObjectVehicle>): (h: int)
    ensures vehicleType.None? ==> h == 0
    ensures vehicleType.Some? ==> h == vehicleType.value.tabHeight
  {
    match vehicleType
    case None => 0
    case Some(v) => v.tabHeight
  }

  /**
   * Height added for vehicles drawn below their track (inverted ones):
   * 29 for a tab height below -10, the negated tab height for one in
   * [-10, 0), nothing otherwise.
   */
  function TabHeightCorrection(tabHeight: int): (c: int)
    ensures 0 <= c <= 29
    ensures c == 0 <==> tabHeight >= 0
    ensures tabHeight < -10 ==> c == 29
    ensures -10 <= tabHeight < 0 ==> c == -tabHeight
  {
    if tabHeight < -10 then 29
    else if tabHeight < 0 then -tabHeight
    else 0
  }

  /** The lower the tab height, the larger the correction. */
  lemma TabHeightCorrectionAntitone(t1: int, t2: int)
    requires t1 <= t2
    ensures TabHeightCorrection(t1) >= TabHeightCorrection(t2)
  {
  }

  lemma TabHeightCorrectionExamples()
    ensures TabHeightCorrection(-20) == 29 && TabHeightCorrection(-5) == 5
    ensures TabHeightCorrection(0) == 0 && TabHeightCorrection(10) == 0
  {
  }

  /** The track location for a track element whose iterator yields a point: the point moved back to the tile corner, with the element's direction and type. */
  function TrackLocationFrom(point: Option<CoordsXYZ>, e: TileElement): (r: Option<CarTrackLocation>)
    ensures r.Some? <==> point.Some?
    ensures r.Some? ==> r.value.Xyz() == CoordsXYZ(point.value.x - TileCentre, point.value.y - TileCentre, point.value.z)
    ensures r.Some? ==> r.value.direction == e.direction && r.value.trackType == e.trackType
  {
    match point
    case None => None
    case Some(p) => Some(CarTrackLocation(p.x - TileCentre, p.y - TileCentre, p.z, e.direction, e.trackType))
  }

  /**
   * getPositionFromTool: a candidate tile point and an optional track
   * location. Both are null when the event carries no tile or no element
   * index; otherwise the tile point is the tile's centre at the element's
   * (surface-adjusted, tab-corrected) height, and a track location exists
   * exactly when the element is track and an iterator exists there.
   */
  function GetPositionFromTool(args: ToolEventArgs, vehicleType: Option<RideObjectVehicle>, view: MapView)
    : (r: (Option<CoordsXYZ>, Option<CarTrackLocation>))
    ensures r.0.None? <==> args.mapCoords.None? || args.tileElementIndex.None?
    ensures r.0.None? ==> r.1.None?
    ensures r.0.Some? ==>
              var x, y, index := args.mapCoords.value.x + TileCentre, args.mapCoords.value.y + TileCentre, args.tileElementIndex.value;
              var e := view.tileElementAt(x, y, index);
              && r.0.value.x == x && r.0.value.y == y
              && r.0.value.z - TabHeightCorrection(TabHeightOf(vehicleType)) == SurfaceZ(e)
              && (r.1.Some? <==> e.kind == Track && view.trackIteratorAt(x, y, index).Some?)
              && (r.1.Some? ==> r.1 == TrackLocationFrom(view.trackIteratorAt(x, y, index), e))
  {
    if args.mapCoords.Some? && args.tileElementIndex.Some? then
      var x := args.mapCoords.value.x + TileCentre;
      var y := args.mapCoords.value.y + TileCentre;
      var index := args.tileElementIndex.value;
      var element := view.tileElementAt(x, y, index);
      var tabHeight := TabHeightOf(vehicleType);
      var trackPosition := if element.kind == Track then TrackLocationFrom(view.trackIteratorAt(x, y, index), element) else None;
      (Some(CoordsXYZ(x, y, SurfaceZ(element) + TabHeightCorrection(tabHeight))), trackPosition)
    else
      (None, None)
  }

  /** A track location's height is the iterator's, without the tab correction the tile point gets. */
  lemma TrackLocationHasNoTabCorrection(args: ToolEventArgs, vehicleType: Option<RideObjectVehicle>, view: MapView)
    requires GetPositionFromTool(args, vehicleType, view).1.Some?
    ensures var r := GetPositionFromTool(args, vehicleType, view);
            var x, y := r.0.value.x, r.0.value.y;
            var p := view.trackIteratorAt(x, y, args.tileElementIndex.value);
            && p.Some?
            && r.1.value.Xyz() == CoordsXYZ(p.value.x - TileCentre, p.value.y - TileCentre, p.value.z)
            && r.0.value.z == view.tileElementAt(x, y, args.tileElementIndex.value).baseZ + TabHeightCorrection(TabHeightOf(vehicleType))
  {
  }

  /** A footpath at height 48 on the tile at (200, 200) gives the candidate (216, 216, 48) and no track location. */
  lemma FootpathScenario(view: MapView)
    requires view.tileElementAt(216, 216, 0) == TileElement(Footpath, 48, 64, 0, 0, 0, 0)
    ensures GetPositionFromTool(ToolEventArgs(Some(CoordsXY(200, 200)), Some(0)), None, view)
            == (Some(CoordsXYZ(216, 216, 48)), None)
  {
  }

  // ---------------------------------------------------------------------
  // Tile highlight alignment (alignWithMap)
  // ---------------------------------------------------------------------

  /** alignWithMap: the corner of the map tile holding the coordinate. */
  function AlignWithMap(coordinate: int): (r: int)
    ensures r % TileSize == 0
    ensures r <= coordinate < r + TileSize
  {
    (coordinate / TileSize) * TileSize
  }

  /** The corner is the only multiple of 32 within a tile's width below the coordinate. */
  lemma AlignWithMapUnique(coordinate: int, corner: int)
    requires corner % TileSize == 0 && corner <= coordinate < corner + TileSize
    ensures corner == AlignWithMap(coordinate)
  {
  }

  lemma AlignWithMapIdempotent(coordinate: int)
    ensures AlignWithMap(AlignWithMap(coordinate)) == AlignWithMap(coordinate)
  {
  }

  lemma AlignWithMapExamples()
    ensures AlignWithMap(0) == 0 && AlignWithMap(31) == 0 && AlignWithMap(32) == 32
    ensures AlignWithMap(63) == 32 && AlignWithMap(64) == 64
  {
  }

  // ---------------------------------------------------------------------
  // Commands (DragState, DragPosition, DragVehicleArgs)
  // ---------------------------------------------------------------------

  /** How a submitted update ends the drag: a preview, a commit or a revert. */
  datatype DragState = Dragging | Complete | Cancel

  /** A placement: a tile point, and optionally a track location with a progress along it. */
  datatype DragPosition = DragPosition(
    tilePosition: CoordsXYZ,
    trackPosition: Option<CarTrackLocation>,
    trackProgress: Option<int>)

  /** The payload of the "rve-drag-car" action: the dragged car's id, its placement and the drag state. */
  datatype DragVehicleArgs = DragVehicleArgs(target: int, position: DragPosition, state: DragState)

  /** The selected vehicle: the car's id and its vehicle type (null when unknown). */
  datatype RideVehicleRef = RideVehicleRef(id: int, vehicleType: Option<RideObjectVehicle>)

  // ---------------------------------------------------------------------
  // Drag session (the closures of toggleVehicleDragger)
  // ---------------------------------------------------------------------

  /**
   * Everything one activation of the tool captures or touches: the
   * constants fixed at activation, the mutable revert flag and last
   * accepted candidate, the payloads handed to `execute` (oldest first),
   * the tile selection, and how often `onCancel` ran.
   */
  datatype Session = Session(
    target: int,
    vehicleType: Option<RideObjectVehicle>,
    multiplayer: bool,
    originalPosition: CoordsXYZ,
    originalTrackPosition: Option<CarTrackLocation>,
    originalTrackProgress: int,
    revert: bool,
    lastPosition: CoordsXYZ,
    lastTrackPosition: Option<CarTrackLocation>,
    commands: seq<DragVehicleArgs>,
    tiles: seq<CoordsXY>,
    cancelCalls: nat)

  /** The fields an activation fixes are the same in both sessions. */
  predicate SameActivation(s: Session, t: Session)
  {
    && s.target == t.target
    && s.vehicleType == t.vehicleType
    && s.multiplayer == t.multiplayer
    && s.originalPosition == t.originalPosition
    && s.originalTrackPosition == t.originalTrackPosition
    && s.originalTrackProgress == t.originalTrackProgress
  }

  /** The session right after activation; `tiles` is the selection the tool finds. */
  function Started(vehicle: RideVehicleRef, originalXYZ: CoordsXYZ, trackLocation: Option<CarTrackLocation>,
                   trackProgress: int, multiplayer: bool, tiles: seq<CoordsXY>): (s: Session)
    ensures s.revert && s.commands == [] && s.cancelCalls == 0 && s.tiles == tiles
    ensures s.target == vehicle.id && s.vehicleType == vehicle.vehicleType && s.multiplayer == multiplayer
    ensures s.lastPosition == s.originalPosition == originalXYZ
    ensures s.lastTrackPosition == s.originalTrackPosition == trackLocation
    ensures s.originalTrackProgress == trackProgress
  {
    Session(vehicle.id, vehicle.vehicleType, multiplayer, originalXYZ, trackLocation, trackProgress,
            true, originalXYZ, trackLocation, [], tiles, 0)
  }

  /** In multiplayer, moves are only handled on every fifth tick. */
  predicate Throttled(multiplayer: bool, ticks: nat)
    ensures !multiplayer ==> !Throttled(multiplayer, ticks)
    ensures multiplayer ==> (Throttled(multiplayer, ticks) <==> ticks % 5 != 0)
  {
    multiplayer && ticks % 5 != 0
  }

  /**
   * The acceptance test of onMove: a candidate with a track location is
   * taken when that location is not x/y/z-equal to the last one; one
   * without is taken when its tile point is not x/y/z-equal to the last.
   */
  predicate Accepts(tile: Option<CoordsXYZ>, track: Option<CarTrackLocation>,
                    lastPosition: CoordsXYZ, lastTrack: Option<CarTrackLocation>)
    ensures Accepts(tile, track, lastPosition, lastTrack) ==> tile.Some?
    ensures track.None? ==> (Accepts(tile, track, lastPosition, lastTrack) <==> tile.Some? && tile.value != lastPosition)
  {
    || (tile.Some? && track.Some? && !EqualCoordsXYZ(track.value.Xyz(), XyzOf(lastTrack)))
    || (track.None? && tile.Some? && !EqualCoordsXYZ(tile.value, Some(lastPosition)))
  }

  /**
   * The acceptance test without the equality helper: a track candidate is
   * new when there was no last track location or its point moved, even if
   * its tile point did not; a tile-only candidate is new when its point moved.
   * Direction and track type are never compared.
   */
  lemma AcceptsCharacterised(tile: Option<CoordsXYZ>, track: Option<CarTrackLocation>,
                             lastPosition: CoordsXYZ, lastTrack: Option<CarTrackLocation>)
    ensures Accepts(tile, track, lastPosition, lastTrack)
            <==> tile.Some? && if track.Some?
                               then lastTrack.None? || track.value.Xyz() != lastTrack.value.Xyz()
                               else tile.value != lastPosition
  {
  }

  /** The candidate a move event resolves to in this session. */
  function CandidateOf(s: Session, args: ToolEventArgs, view: MapView): (Option<CoordsXYZ>, Option<CarTrackLocation>)
  {
    GetPositionFromTool(args, s.vehicleType, view)
  }

  /**
   * onMove: a throttled or rejected move changes nothing; an accepted one
   * issues exactly one Dragging command for the candidate (no progress),
   * selects exactly the tile holding it, and makes it the last position.
   */
  function AfterMove(s: Session, ticks: nat, args: ToolEventArgs, view: MapView): (r: Session)
    ensures SameActivation(s, r) && r.revert == s.revert && r.cancelCalls == s.cancelCalls
    ensures var c := CandidateOf(s, args, view);
            r == s <==> Throttled(s.multiplayer, ticks) || !Accepts(c.0, c.1, s.lastPosition, s.lastTrackPosition)
    ensures r != s ==>
              var c := CandidateOf(s, args, view);
              && c.0 == Some(r.lastPosition) && c.1 == r.lastTrackPosition
              && r.commands == s.commands + [DragVehicleArgs(s.target, DragPosition(r.lastPosition, r.lastTrackPosition, None), Dragging)]
              && r.tiles == [CoordsXY(AlignWithMap(r.lastPosition.x), AlignWithMap(r.lastPosition.y))]
  {
    if Throttled(s.multiplayer, ticks) then s
    else
      var (tilePosition, trackPosition) := CandidateOf(s, args, view);
      if Accepts(tilePosition, trackPosition, s.lastPosition, s.lastTrackPosition) then
        var position := DragPosition(tilePosition.value, trackPosition, None);
        s.(commands := s.commands + [DragVehicleArgs(s.target, position, Dragging)],
           tiles := [CoordsXY(AlignWithMap(tilePosition.value.x), AlignWithMap(tilePosition.value.y))],
           lastPosition := tilePosition.value,
           lastTrackPosition := trackPosition)
      else s
  }

  /** onDown: the drag will not be reverted, and one Complete command carries the last accepted candidate without progress. */
  function AfterDown(s: Session): (r: Session)
    ensures SameActivation(s, r) && !r.revert
    ensures r.commands == s.commands + [DragVehicleArgs(s.target, DragPosition(s.lastPosition, s.lastTrackPosition, None), Complete)]
    ensures r.lastPosition == s.lastPosition && r.lastTrackPosition == s.lastTrackPosition
    ensures r.tiles == s.tiles && r.cancelCalls == s.cancelCalls
  {
    var position := DragPosition(s.lastPosition, s.lastTrackPosition, None);
    s.(revert := false, commands := s.commands + [DragVehicleArgs(s.target, position, Complete)])
  }

  /**
   * onFinish: a drag still marked for revert issues one Cancel command
   * carrying the original point, track location and progress; in every
   * case the tile selection is cleared and onCancel runs once.
   */
  function AfterFinish(s: Session): (r: Session)
    ensures SameActivation(s, r) && r.revert == s.revert
    ensures r.lastPosition == s.lastPosition && r.lastTrackPosition == s.lastTrackPosition
    ensures r.commands == s.commands + if s.revert then [CancelCommand(s)] else []
    ensures r.tiles == [] && r.cancelCalls == s.cancelCalls + 1
  {
    var reverted := if s.revert then s.(commands := s.commands + [CancelCommand(s)]) else s;
    reverted.(tiles := [], cancelCalls := s.cancelCalls + 1)
  }

  /** The command that puts the car back where the drag found it. */
  function CancelCommand(s: Session): (c: DragVehicleArgs)
    ensures c.state == Cancel && c.target == s.target
    ensures c.position == DragPosition(s.originalPosition, s.originalTrackPosition, Some(s.originalTrackProgress))
  {
    DragVehicleArgs(s.target, DragPosition(s.originalPosition, s.originalTrackPosition, Some(s.originalTrackProgress)), Cancel)
  }

  /** One move event as the host delivers it, with the tick and map at that moment. */
  datatype MoveEvent = MoveEvent(ticks: nat, args: ToolEventArgs, view: MapView)

  /** The session after the host delivers the move events in order. */
  function RunMoves(s: Session, moves: seq<MoveEvent>): Session
    decreases |moves|
  {
    if moves == [] then s
    else RunMoves(AfterMove(s, moves[0].ticks, moves[0].args, moves[0].view), moves[1..])
  }

  /** The commands of a log that end a drag (Complete or Cancel), in order. */
  function Terminals(log: seq<DragVehicleArgs>): (t: seq<DragVehicleArgs>)
    ensures |t| <= |log|
    ensures forall c :: c in t ==> c in log && c.state != Dragging
  {
    if log == [] then []
    else (if log[0].state == Dragging then [] else [log[0]]) + Terminals(log[1..])
  }

  lemma {:induction false} TerminalsAppend(a: seq<DragVehicleArgs>, b: seq<DragVehicleArgs>)
    ensures Terminals(a + b) == Terminals(a) + Terminals(b)
  {
    if a == [] {
      assert a + b == b;
    } else {
      assert (a + b)[1..] == a[1..] + b;
      TerminalsAppend(a[1..], b);
    }
  }

  /**
   * However many moves arrive, they only ever add Dragging previews: the
   * activation's constants, the revert flag, onCancel's count and the
   * terminal commands stay as they were, and earlier commands are kept.
   */
  lemma {:induction false} MovesOnlyPreview(s: Session, moves: seq<MoveEvent>)
    ensures var r := RunMoves(s, moves);
            && SameActivation(s, r) && r.revert == s.revert && r.cancelCalls == s.cancelCalls
            && |s.commands| <= |r.commands| && r.commands[..|s.commands|] == s.commands
            && Terminals(r.commands) == Terminals(s.commands)
    decreases |moves|
  {
    if moves != [] {
      var m := moves[0];
      var s1 := AfterMove(s, m.ticks, m.args, m.view);
      if s1 != s {
        var c := s1.commands[|s.commands|];
        assert s1.commands == s.commands + [c] && c.state == Dragging;
        TerminalsAppend(s.commands, [c]);
        assert Terminals([c]) == [] by { assert [c][1..] == []; }
      }
      MovesOnlyPreview(s1, moves[1..]);
      var r := RunMoves(s1, moves[1..]);
      assert r.commands[..|s.commands|] == r.commands[..|s1.commands|][..|s.commands|];
    }
  }

  /**
   * A confirmed drag (onDown, then the onFinish that closing the tool
   * triggers) issues exactly one terminal command: Complete, carrying the
   * last accepted candidate. The selection is cleared and onCancel ran once.
   */
  lemma ConfirmedDragCompletesOnce(vehicle: RideVehicleRef, originalXYZ: CoordsXYZ, trackLocation: Option<CarTrackLocation>,
                                   trackProgress: int, multiplayer: bool, tiles: seq<CoordsXY>, moves: seq<MoveEvent>)
    ensures var s := RunMoves(Started(vehicle, originalXYZ, trackLocation, trackProgress, multiplayer, tiles), moves);
            var f := AfterFinish(AfterDown(s));
            && Terminals(f.commands) == [DragVehicleArgs(vehicle.id, DragPosition(s.lastPosition, s.lastTrackPosition, None), Complete)]
            && f.commands[|f.commands| - 1].state == Complete
            && f.tiles == [] && f.cancelCalls == 1
  {
    var s0 := Started(vehicle, originalXYZ, trackLocation, trackProgress, multiplayer, tiles);
    MovesOnlyPreview(s0, moves);
    var s := RunMoves(s0, moves);
    var done := DragVehicleArgs(vehicle.id, DragPosition(s.lastPosition, s.lastTrackPosition, None), Complete);
    assert Terminals(s.commands) == [] by { assert Terminals(s0.commands) == []; }
    TerminalsAppend(s.commands, [done]);
    assert Terminals([done]) == [done] by { assert [done][1..] == []; }
  }

  /**
   * A drag closed without confirmation issues exactly one terminal command:
   * Cancel, carrying the original point, track location and progress
   * whatever candidates were previewed. The selection is cleared and
   * onCancel ran once.
   */
  lemma UnconfirmedDragCancelsOnce(vehicle: RideVehicleRef, originalXYZ: CoordsXYZ, trackLocation: Option<CarTrackLocation>,
                                   trackProgress: int, multiplayer: bool, tiles: seq<CoordsXY>, moves: seq<MoveEvent>)
    ensures var s := RunMoves(Started(vehicle, originalXYZ, trackLocation, trackProgress, multiplayer, tiles), moves);
            var f := AfterFinish(s);
            && Terminals(f.commands) == [DragVehicleArgs(vehicle.id, DragPosition(originalXYZ, trackLocation, Some(trackProgress)), Cancel)]
            && f.tiles == [] && f.cancelCalls == 1
  {
    var s0 := Started(vehicle, originalXYZ, trackLocation, trackProgress, multiplayer, tiles);
    MovesOnlyPreview(s0, moves);
    var s := RunMoves(s0, moves);
    var undo := CancelCommand(s);
    assert Terminals(s.commands) == [] by { assert Terminals(s0.commands) == []; }
    TerminalsAppend(s.commands, [undo]);
    assert Terminals([undo]) == [undo] by { assert [undo][1..] == []; }
  }

  /** Once a pointer position has been previewed, the same position again changes nothing, whatever the tick. */
  lemma RepeatedMoveIsSuppressed(s: Session, ticks1: nat, ticks2: nat, args: ToolEventArgs, view: MapView)
    ensures var s1 := AfterMove(s, ticks1, args, view);
            s1 != s ==> AfterMove(s1, ticks2, args, view) == s1
  {
  }

  /**
   * A track candidate whose point matches the last track location is
   * ignored even when its direction, track type or tile point differ.
   */
  lemma TrackCandidateAtSamePointIgnored(s: Session, ticks: nat, args: ToolEventArgs, view: MapView)
    requires CandidateOf(s, args, view).1.Some? && s.lastTrackPosition.Some?
    requires CandidateOf(s, args, view).1.value.Xyz() == s.lastTrackPosition.value.Xyz()
    ensures AfterMove(s, ticks, args, view) == s
  {
  }

  /** An unthrottled track candidate is always taken when there is no last track location. */
  lemma TrackCandidateAfterFreePlacementAccepted(s: Session, ticks: nat, args: ToolEventArgs, view: MapView)
    requires !Throttled(s.multiplayer, ticks)
    requires CandidateOf(s, args, view).1.Some? && s.lastTrackPosition.None?
    ensures AfterMove(s, ticks, args, view).lastTrackPosition == CandidateOf(s, args, view).1
  {
  }

  /**
   * One activation of the drag tool. The constants are what the closures
   * capture at activation; `revert` is `originalPosition.revert`;
   * `commands` are the payloads passed to `execute`, `tiles` is
   * `ui.tileSelection.tiles` and `cancelCalls` counts calls of `onCancel`.
   */
  class DragTool {
    const target: int
    const vehicleType: Option<RideObjectVehicle>
    const multiplayer: bool
    const originalPosition: CoordsXYZ
    const originalTrackPosition: Option<CarTrackLocation>
    const originalTrackProgress: int
    var revert: bool
    var lastPosition: CoordsXYZ
    var lastTrackPosition: Option<CarTrackLocation>
    var commands: seq<DragVehicleArgs>
    var tiles: seq<CoordsXY>
    var cancelCalls: nat

    /** The session this tool is in. */
    function State(): Session
      reads this
    {
      Session(target, vehicleType, multiplayer, originalPosition, originalTrackPosition, originalTrackProgress,
              revert, lastPosition, lastTrackPosition, commands, tiles, cancelCalls)
    }

    constructor (vehicle: RideVehicleRef, originalXYZ: CoordsXYZ, trackLocation: Option<CarTrackLocation>,
                 trackProgress: int, multiplayer: bool, tiles: seq<CoordsXY>)
      ensures State() == Started(vehicle, originalXYZ, trackLocation, trackProgress, multiplayer, tiles)
    {
      target := vehicle.id;
      vehicleType := vehicle.vehicleType;
      this.multiplayer := multiplayer;
      originalPosition := originalXYZ;
      originalTrackPosition := trackLocation;
      originalTrackProgress := trackProgress;
      revert := true;
      lastPosition := originalXYZ;
      lastTrackPosition := trackLocation;
      commands := [];
      this.tiles := tiles;
      cancelCalls := 0;
    }

    /** updateCarPosition: hands one payload for this car to `execute`. */
    method UpdateCarPosition(position: DragPosition, state: DragState)
      modifies this`commands
      ensures commands == old(commands) + [DragVehicleArgs(target, position, state)]
    {
      commands := commands + [DragVehicleArgs(target, position, state)];
    }

    /** onMove. */
    method OnMove(ticks: nat, args: ToolEventArgs, view: MapView)
      modifies this
      ensures State() == AfterMove(old(State()), ticks, args, view)
    {
      if multiplayer && ticks % 5 != 0 {
        return;
      }
      var (tilePosition, trackPosition) := GetPositionFromTool(args, vehicleType, view);
      if || (tilePosition.Some? && trackPosition.Some? && !EqualCoordsXYZ(trackPosition.value.Xyz(), XyzOf(lastTrackPosition)))
         || (trackPosition.None? && tilePosition.Some? && !EqualCoordsXYZ(tilePosition.value, Some(lastPosition)))
      {
        UpdateCarPosition(DragPosition(tilePosition.value, trackPosition, None), Dragging);
        tiles := [CoordsXY(AlignWithMap(tilePosition.value.x), AlignWithMap(tilePosition.value.y))];
        lastPosition := tilePosition.value;
        lastTrackPosition := trackPosition;
      }
    }

    /** onDown, followed by the onFinish the host runs when cancelCurrentTool closes the tool. */
    method OnDown()
      modifies this
      ensures State() == AfterFinish(AfterDown(old(State())))
    {
      revert := false;
      UpdateCarPosition(DragPosition(lastPosition, lastTrackPosition, None), Complete);
      OnFinish();
    }

    /** onFinish. */
    method OnFinish()
      modifies this
      ensures State() == AfterFinish(old(State()))
    {
      if revert {
        UpdateCarPosition(DragPosition(originalPosition, originalTrackPosition, Some(originalTrackProgress)), Cancel);
      }
      tiles := [];
      cancelCalls := cancelCalls + 1;
    }
  }

  /**
   * toggleVehicleDragger: without a press or without a selected vehicle it
   * only cancels the drag tool (null); otherwise it starts a session with
   * the vehicle's current point, track location and progress.
   */
  method ToggleVehicleDragger(isPressed: bool, vehicle: Option<RideVehicleRef>, originalXYZ: CoordsXYZ,
                              trackLocation: Option<CarTrackLocation>, trackProgress: int,
                              multiplayer: bool, tiles: seq<CoordsXY>)
    returns (tool: DragTool?)
    ensures tool == null <==> !isPressed || vehicle.None?
    ensures tool != null ==>
              fresh(tool) && tool.State() == Started(vehicle.value, originalXYZ, trackLocation, trackProgress, multiplayer, tiles)
  {
    if !isPressed || vehicle.None? {
      return null;
    }
    tool := new DragTool(vehicle.value, originalXYZ, trackLocation, trackProgress, multiplayer, tiles);
  }

  // ---------------------------------------------------------------------
  // Commit handler (updateVehicleDrag)
  // ---------------------------------------------------------------------

  /** The progress a placement travels to: the given one, or 1 when none is given. */
  function ProgressOrOne(progress: Option<int>): (p: int)
    ensures progress.Some? ==> p == progress.value
    ensures progress.None? ==> p == 1
  {
    match progress
    case None => 1
    case Some(v) => v
  }

  /** A car of a ride vehicle, as the commit handler changes it. */
  class Car {
    var x: int
    var y: int
    var z: int
    var trackLocation: CarTrackLocation
    /** Progress values whose distance `travelBy` was asked to cover, oldest first. */
    var travels: seq<int>

    constructor (x: int, y: int, z: int, trackLocation: CarTrackLocation)
      ensures this.x == x && this.y == y && this.z == z
      ensures this.trackLocation == trackLocation && travels == []
    {
      this.x, this.y, this.z := x, y, z;
      this.trackLocation := trackLocation;
      travels := [];
    }

    /** car.travelBy(getDistanceFromProgress(car, progress)); the travel itself is the game's. */
    method TravelToProgress(progress: int)
      modifies this`travels
      ensures travels == old(travels) + [progress]
    {
      travels := travels + [progress];
    }
  }

  /** The cars the game can find by id, and the ids of cars whose refresh was announced. */
  class Park {
    var cars: map<int, Car>
    var refreshed: seq<int>

    constructor (cars: map<int, Car>)
      ensures this.cars == cars && refreshed == []
    {
      this.cars := cars;
      refreshed := [];
    }

    /**
     * updateVehicleDrag: a target that finds no car changes nothing.
     * Otherwise a placement without track location puts the car at the
     * tile point; one with a track location assigns it and travels to the
     * given progress (1 when none is given); either way one refresh is
     * announced for the target. The drag state plays no part.
     */
    method UpdateVehicleDrag(args: DragVehicleArgs)
      modifies this`refreshed, if args.target in cars then {cars[args.target]} else {}
      ensures cars == old(cars)
      ensures args.target !in cars ==> refreshed == old(refreshed)
      ensures args.target in cars ==> refreshed == old(refreshed) + [args.target]
      ensures args.target in cars && args.position.trackPosition.None? ==>
                var car, p := cars[args.target], args.position.tilePosition;
                && car.x == p.x && car.y == p.y && car.z == p.z
                && car.trackLocation == old(car.trackLocation) && car.travels == old(car.travels)
      ensures args.target in cars && args.position.trackPosition.Some? ==>
                var car := cars[args.target];
                && car.trackLocation == args.position.trackPosition.value
                && car.travels == old(car.travels) + [ProgressOrOne(args.position.trackProgress)]
    {
      var id := args.target;
      if id !in cars {
        return;
      }
      var car := cars[id];
      match args.position.trackPosition {
        case None =>
          var position := args.position.tilePosition;
          car.x := position.x;
          car.y := position.y;
          car.z := position.z;
        case Some(location) =>
          car.trackLocation := location;
          if args.position.trackProgress.Some? {
            car.TravelToProgress(args.position.trackProgress.value);
          } else {
            car.TravelToProgress(1);
          }
      }
      refreshed := refreshed + [id];
    }
  }

  /**
   * A car at (100, 100, 50) off track is dragged over a footpath at height
   * 48 on the tile at (200, 200) and the drag is confirmed; replaying the
   * issued commands through the commit handler leaves it at (216, 216, 48),
   * with one refresh announced per command.
   */
  method FreePlacementScenario() returns (placed: CoordsXYZ, refreshed: seq<int>, states: seq<DragState>)
    ensures placed == CoordsXYZ(216, 216, 48)
    ensures refreshed == [7, 7]
    ensures states == [Dragging, Complete]
  {
    var view := MapView((x: int, y: int, i: nat) => TileElement(Footpath, 48, 64, 0, 0, 0, 0),
                        (x: int, y: int, i: nat) => None);
    var vehicle := RideVehicleRef(7, None);
    var tool := ToggleVehicleDragger(true, Some(vehicle), CoordsXYZ(100, 100, 50), None, 0, false, []);
    tool.OnMove(3, ToolEventArgs(Some(CoordsXY(200, 200)), Some(0)), view);
    assert tool.lastPosition == CoordsXYZ(216, 216, 48);
    assert tool.tiles == [CoordsXY(192, 192)];
    tool.OnDown();
    assert tool.tiles == [] && tool.cancelCalls == 1;
    assert |tool.commands| == 2 && tool.commands[1].state == Complete;

    var car := new Car(100, 100, 50, CarTrackLocation(0, 0, 0, 0, 0));
    var park := new Park(map[7 := car]);
    park.UpdateVehicleDrag(tool.commands[0]);
    park.UpdateVehicleDrag(tool.commands[1]);
    assert car.x == 216 && car.y == 216 && car.z == 48;
    placed, refreshed := CoordsXYZ(car.x, car.y, car.z), park.refreshed;
    states := [tool.commands[0].state, tool.commands[1].state];
  }
}
