// The ray-trace debugger: an older CPU copy of the plane geometry that
// rebuilds a plane from the triangle list uploaded to the GPU and probes
// the images of the bottom-right quadrant by Manhattan distance.
module RayDebug {
  import opened Wrappers
  import opened Vectors
  import opened Numeric
  import opened ViewerTypes
  import Search
  import Interpolation

  /** The debugger's view of the scene: the plane vertices (two triangles,
      six vertices, per plane) and all image records. */
  datatype RayTraceDebugger = RayTraceDebugger(primaryData: seq<PlaneVertex>, secondaryData: seq<PlaneImageInfo>)

  /** A plane rebuilt from its vertices; `firstIndex..lastIndex` is the range of
      its image records. */
  datatype DebugPlane = DebugPlane(
    topLeft: Vec3, topRight: Vec3, bottomLeft: Vec3, bottomRight: Vec3,
    normal: Vec3, firstIndex: nat, lastIndex: nat)

  /** `f as usize` for a float: truncation toward zero, negative values give 0. */
  function F32ToUsize(f: real): (r: nat)
    ensures f >= 0.0 ==> r as real <= f < r as real + 1.0
    ensures f < 1.0 ==> r == 0
  {
    if f <= 0.0 then 0 else f.Floor
  }

  /** Vertices of a primitive exist: the even triangle of a pair reads up to
      index 3p+5, the odd one up to 3p+2. */
  predicate PrimitiveInRange(dbg: RayTraceDebugger, primitiveId: nat) {
    if primitiveId % 2 == 0 then 3 * primitiveId + 5 < |dbg.primaryData|
    else 3 * primitiveId + 2 < |dbg.primaryData|
  }

  /** `get_plane`: the quad a triangle belongs to. */
  function GetPlane(dbg: RayTraceDebugger, primitiveId: nat): DebugPlane
    requires PrimitiveInRange(dbg, primitiveId)
  {
    var d := dbg.primaryData;
    var base := if primitiveId % 2 == 0 then 3 * primitiveId else 3 * primitiveId - 3;
    var v0, v1, v2, v5 := d[base], d[base + 1], d[base + 2], d[base + 5];
    DebugPlane(v1.positionFirst.Xyz(), v5.positionFirst.Xyz(), v0.positionFirst.Xyz(), v2.positionFirst.Xyz(),
               v0.normalLast.Xyz(), F32ToUsize(v0.positionFirst.w), F32ToUsize(v0.normalLast.w))
  }

  /** Both triangles of a pair resolve to the same quad. */
  lemma OddPrimitiveSharesQuad(dbg: RayTraceDebugger, primitiveId: nat)
    requires primitiveId % 2 == 1 && PrimitiveInRange(dbg, primitiveId)
    ensures PrimitiveInRange(dbg, primitiveId - 1)
    ensures GetPlane(dbg, primitiveId) == GetPlane(dbg, primitiveId - 1)
  {
  }

  /** Primitive p belongs to quad q = p / 2, whose six vertices start at 6q:
      top left is vertex 6q+1, top right 6q+5, bottom left 6q, bottom right
      6q+2, and the normal and the image range come from vertex 6q. */
  lemma {:induction false} GetPlaneOfQuad(dbg: RayTraceDebugger, primitiveId: nat)
    requires PrimitiveInRange(dbg, primitiveId)
    ensures var q := primitiveId / 2;
      var d := dbg.primaryData;
      var p := GetPlane(dbg, primitiveId);
      6 * q + 5 < |d| &&
      p.topLeft == d[6 * q + 1].positionFirst.Xyz() && p.topRight == d[6 * q + 5].positionFirst.Xyz() &&
      p.bottomLeft == d[6 * q].positionFirst.Xyz() && p.bottomRight == d[6 * q + 2].positionFirst.Xyz() &&
      p.normal == d[6 * q].normalLast.Xyz() &&
      p.firstIndex == F32ToUsize(d[6 * q].positionFirst.w) && p.lastIndex == F32ToUsize(d[6 * q].normalLast.w)
  {
    var q := primitiveId / 2;
    assert primitiveId == 2 * q + primitiveId % 2;
    if primitiveId % 2 == 0 {
      assert 3 * primitiveId == 6 * q;
    } else {
      assert 3 * primitiveId - 3 == 6 * q;
    }
  }

  // ---------------------------------------------------------------------
  // Manhattan search in the bottom-right quadrant

  predicate BottomRightOf(bary: Vec2, info: PlaneImageInfo) {
    info.center.x - bary.x >= 0.0 && info.center.y - bary.y >= 0.0
  }

  function Manhattan(bary: Vec2, info: PlaneImageInfo): real {
    (info.center.x - bary.x) + (info.center.y - bary.y)
  }

  function IsBottomRight(bary: Vec2): PlaneImageInfo -> bool {
    info => BottomRightOf(bary, info)
  }

  function ManhattanScore(bary: Vec2): PlaneImageInfo -> real {
    info => Manhattan(bary, info)
  }

  /** What `find_closest_bottom_right` returns for the records `infos`. */
  function ClosestBottomRight(infos: seq<PlaneImageInfo>, bary: Vec2): Option<PlaneImageInfo> {
    match Search.FirstArgmin(infos, IsBottomRight(bary), ManhattanScore(bary), 2.0, |infos|)
    case None => None
    case Some(k) => Some(infos[k])
  }

  /** Only records in `start..end` are looked at; the result is the first
      bottom-right record of least Manhattan distance, provided that
      distance is below 2. */
  lemma ClosestBottomRightIsNearest(dbg: RayTraceDebugger, start: nat, end: nat, bary: Vec2)
    requires start <= end <= |dbg.secondaryData|
    ensures var r := ClosestBottomRight(dbg.secondaryData[start..end], bary);
      r.None? <==> forall j :: start <= j < end ==>
        !(BottomRightOf(bary, dbg.secondaryData[j]) && Manhattan(bary, dbg.secondaryData[j]) < 2.0)
    ensures var r := ClosestBottomRight(dbg.secondaryData[start..end], bary);
      r.Some? ==> exists k ::
        && start <= k < end
        && r.value == dbg.secondaryData[k]
        && BottomRightOf(bary, dbg.secondaryData[k]) && Manhattan(bary, dbg.secondaryData[k]) < 2.0
        && (forall j :: start <= j < end && BottomRightOf(bary, dbg.secondaryData[j]) ==>
              Manhattan(bary, dbg.secondaryData[k]) <= Manhattan(bary, dbg.secondaryData[j]))
        && (forall j :: start <= j < k && BottomRightOf(bary, dbg.secondaryData[j]) ==>
              Manhattan(bary, dbg.secondaryData[k]) < Manhattan(bary, dbg.secondaryData[j]))
  {
    var s := dbg.secondaryData[start..end];
    Search.FirstArgminIsFirstMinimum(s, IsBottomRight(bary), ManhattanScore(bary), 2.0, |s|);
    var r := ClosestBottomRight(s, bary);
    if r.None? {
      forall j | start <= j < end
        ensures !(BottomRightOf(bary, dbg.secondaryData[j]) && Manhattan(bary, dbg.secondaryData[j]) < 2.0)
      {
        assert s[j - start] == dbg.secondaryData[j];
      }
    } else {
      var i := Search.FirstArgmin(s, IsBottomRight(bary), ManhattanScore(bary), 2.0, |s|).value;
      var k := start + i;
      assert s[i] == dbg.secondaryData[k];
      forall j | start <= j < end && BottomRightOf(bary, dbg.secondaryData[j])
        ensures Manhattan(bary, dbg.secondaryData[k]) <= Manhattan(bary, dbg.secondaryData[j])
      {
        assert s[j - start] == dbg.secondaryData[j];
      }
      forall j | start <= j < k && BottomRightOf(bary, dbg.secondaryData[j])
        ensures Manhattan(bary, dbg.secondaryData[k]) < Manhattan(bary, dbg.secondaryData[j])
      {
        assert s[j - start] == dbg.secondaryData[j];
      }
    }
  }

  /** `find_closest_bottom_right`: one pass over `secondary_data[start..end]`. */
  method FindClosestBottomRight(dbg: RayTraceDebugger, startIndex: nat, endIndex: nat, bary: Vec2)
    returns (r: Option<PlaneImageInfo>)
    requires startIndex <= endIndex <= |dbg.secondaryData|
    ensures r == ClosestBottomRight(dbg.secondaryData[startIndex..endIndex], bary)
  {
    var infos := dbg.secondaryData[startIndex..endIndex];
    var minimalDistance := 2.0;
    var imageInfo: Option<PlaneImageInfo> := None;
    ghost var best: Option<nat> := None;
    for i := 0 to |infos|
      invariant best == Search.FirstArgmin(infos, IsBottomRight(bary), ManhattanScore(bary), 2.0, i)
      invariant best.None? ==> imageInfo.None? && minimalDistance == 2.0
      invariant best.Some? ==> imageInfo == Some(infos[best.value]) && minimalDistance == Manhattan(bary, infos[best.value])
    {
      var info := infos[i];
      var xDiff := info.center.x - bary.x;
      if xDiff < 0.0 {
        continue;
      }
      var yDiff := info.center.y - bary.y;
      if yDiff < 0.0 {
        continue;
      }
      var newDistance := xDiff + yDiff;
      if newDistance < minimalDistance {
        minimalDistance := newDistance;
        imageInfo := Some(info);
        best := Some(i);
      }
    }
    r := imageInfo;
  }

  // ---------------------------------------------------------------------
  // Geometry

  /** The debugger's line-plane intersection: it panics on a parallel line,
      and unlike the selector's version it accepts an origin on the plane. */
  function PlaneLineIntersection(plane: DebugPlane, origin: Vec3, direction: Vec3): (r: Vec3)
    requires plane.normal.Dot(direction) != 0.0
    ensures plane.topLeft.Sub(r).Dot(plane.normal) == 0.0
  {
    var numerator := plane.topLeft.Sub(origin).Dot(plane.normal);
    var denominator := plane.normal.Dot(direction);
    var distance := numerator / denominator;
    var p := origin.Add(direction.Scale(distance));
    assert plane.topLeft.Sub(p).Dot(plane.normal) == numerator - distance * denominator;
    p
  }

  /** Where both versions are defined they agree; where the selector's version
      gives None on a non-parallel line, the origin lies in the plane and the
      debugger's version returns the origin itself. */
  lemma IntersectionsAgree(plane: DebugPlane, selectorPlane: Interpolation.Plane, origin: Vec3, direction: Vec3)
    requires selectorPlane.topLeft == plane.topLeft && selectorPlane.normal == plane.normal
    requires plane.normal.Dot(direction) != 0.0
    ensures var s := Interpolation.PlaneLineIntersection(selectorPlane, origin, direction);
      (s.Some? ==> s.value == PlaneLineIntersection(plane, origin, direction)) &&
      (s.None? ==> PlaneLineIntersection(plane, origin, direction) == origin)
  {
    var s := Interpolation.PlaneLineIntersection(selectorPlane, origin, direction);
    if s.None? {
      assert plane.topLeft.Sub(origin).Dot(plane.normal) == 0.0;
      assert direction.Scale(0.0) == Zero3;
    }
  }

  function CalculateBarycentrics(plane: DebugPlane, point: Vec3, magnitude: Vec3 -> real): Vec2
    requires magnitude(plane.topRight.Sub(plane.topLeft)) != 0.0
    requires magnitude(plane.bottomLeft.Sub(plane.topLeft)) != 0.0
  {
    var horizontal := plane.topRight.Sub(plane.topLeft);
    var vertical := plane.bottomLeft.Sub(plane.topLeft);
    Vec2(Interpolation.DistanceToLine(plane.topLeft, vertical, point, magnitude) / magnitude(horizontal),
         Interpolation.DistanceToLine(plane.topLeft, horizontal, point, magnitude) / magnitude(vertical))
  }

  /** The debugger's plane coordinates are the selector's for the same corners. */
  lemma BarycentricsAgree(plane: DebugPlane, selectorPlane: Interpolation.Plane, point: Vec3, magnitude: Vec3 -> real)
    requires selectorPlane.topLeft == plane.topLeft && selectorPlane.topRight == plane.topRight
    requires selectorPlane.bottomLeft == plane.bottomLeft
    requires Interpolation.NonDegenerate(selectorPlane, magnitude)
    ensures CalculateBarycentrics(plane, point, magnitude) == Interpolation.CalculateBarycentrics(selectorPlane, point, magnitude)
  {
  }

  // ---------------------------------------------------------------------
  // Region dispatch

  datatype DebugError = NoBottomRightImage

  /** The image ranges the above-left branch reads exist. */
  predicate RangeValid(dbg: RayTraceDebugger, plane: DebugPlane) {
    plane.firstIndex <= plane.lastIndex <= |dbg.secondaryData|
  }

  /** `interpolate_images`: only the above-left region searches anything, and
      it fails when that search finds no bottom-right image; every other
      region only reports where the viewer is. */
  method InterpolateImages(dbg: RayTraceDebugger, plane: DebugPlane, hitBary: Vec2, povBary: Vec2)
    returns (r: Result<(), DebugError>)
    requires Interpolation.RegionOf(povBary) == Interpolation.AboveLeft ==> RangeValid(dbg, plane)
    ensures r.Err? <==>
      Interpolation.RegionOf(povBary) == Interpolation.AboveLeft &&
      RangeValid(dbg, plane) &&
      ClosestBottomRight(dbg.secondaryData[plane.firstIndex..plane.lastIndex], povBary).None?
  {
    if povBary.y < 0.0 {
      if povBary.x < 0.0 {
        var imageInfo := FindClosestBottomRight(dbg, plane.firstIndex, plane.lastIndex, povBary);
        if imageInfo.None? {
          return Err(NoBottomRightImage);
        }
      }
    }
    r := Ok(());
  }
}
