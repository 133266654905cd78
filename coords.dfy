/**
 * Map coordinates and the x/y/z equality of src/utilities/coords.ts.
 * All coordinates are whole map units.
 */
module Coords {
  import opened Wrappers

  /** A point on a map tile grid (the game's CoordsXY). */
  datatype CoordsXY = CoordsXY(x: int, y: int)

  /** A point in the map (the game's CoordsXYZ). */
  datatype CoordsXYZ = CoordsXYZ(x: int, y: int, z: int)

  /** A car's place on a track element: a point plus the element's direction and track type. */
  datatype CarTrackLocation = CarTrackLocation(x: int, y: int, z: int, direction: int, trackType: int)
  {
    /** The location as a plain point; TypeScript's structural typing passes it this way where a CoordsXYZ is expected. */
    function Xyz(): CoordsXYZ
    {
      CoordsXYZ(x, y, z)
    }
  }

  /** A nullable track location seen as a nullable point. */
  function XyzOf(t: Option<CarTrackLocation>): (r: Option<CoordsXYZ>)
    ensures r.None? <==> t.None?
  {
    match t
    case None => None
    case Some(loc) => Some(loc.Xyz())
  }

  /** equalCoordsXYZ: component-wise equality of x, y and z; a point never equals null. */
  function EqualCoordsXYZ(a: CoordsXYZ, b: Option<CoordsXYZ>): (r: bool)
    ensures b.None? ==> !r
    ensures r <==> b == Some(a)
  {
    if b.None? then false
    else a.x == b.value.x && a.y == b.value.y && a.z == b.value.z
  }

  lemma EqualCoordsReflexive(a: CoordsXYZ)
    ensures EqualCoordsXYZ(a, Some(a))
  {
  }

  lemma EqualCoordsSymmetric(a: CoordsXYZ, b: CoordsXYZ)
    ensures EqualCoordsXYZ(a, Some(b)) == EqualCoordsXYZ(b, Some(a))
  {
  }

  /**
   * Comparing two track locations as points looks at x, y and z only:
   * the direction and the track type never change the answer.
   */
  lemma TrackLocationsCompareByXyzOnly(s: CarTrackLocation, t: CarTrackLocation)
    ensures EqualCoordsXYZ(s.Xyz(), XyzOf(Some(t))) <==> s.x == t.x && s.y == t.y && s.z == t.z
    ensures EqualCoordsXYZ(s.Xyz(), XyzOf(Some(t)))
            == EqualCoordsXYZ(s.(direction := t.direction + 1, trackType := t.trackType + 1).Xyz(), XyzOf(Some(t)))
  {
  }

  /** Two different track locations (opposite directions on one spot) that the comparison calls equal. */
  lemma DistinctTrackLocationsCompareEqual()
    ensures var s, t := CarTrackLocation(64, 96, 48, 0, 1), CarTrackLocation(64, 96, 48, 2, 1);
            s != t && EqualCoordsXYZ(s.Xyz(), XyzOf(Some(t)))
  {
  }
}
