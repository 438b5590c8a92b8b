// The CPU camera selector: for every light-field plane it projects the
// viewer onto the plane, classifies the viewer into one of nine regions
// around the plane, searches the nearest image centres in the needed
// quadrants and writes a selector of 1, 2 or 4 image slots (with -1 for
// unused slots) and a blend factor into the plane's GPU record.
module Interpolation {
  import opened Wrappers
  import opened Vectors
  import opened Numeric
  import opened ViewerTypes
  import Search
  import LightFieldData

  /** The CPU copy of one plane: its four corners, its normal, the images
      placed on it and the light field's frustum. */
  datatype Plane = Plane(
    topLeft: Vec3, topRight: Vec3, bottomLeft: Vec3, bottomRight: Vec3,
    normal: Vec3,
    imageInfos: seq<PlaneImageInfo>,
    frustum: LightFieldData.LightFieldFrustum)

  /** `Plane::new`: the corners and the normal are the record's `truncate()`d. */
  function NewPlane(info: PlaneInfo, frustum: LightFieldData.LightFieldFrustum, imageInfos: seq<PlaneImageInfo>): Plane {
    Plane(info.topLeft.Xyz(), info.topRight.Xyz(), info.bottomLeft.Xyz(), info.bottomRight.Xyz(),
          info.normal.Xyz(), imageInfos, frustum)
  }

  /** `CPUInterpolation::new`: one plane per input triple, in input order. */
  method New(interpolationInfos: seq<(PlaneInfo, LightFieldData.LightFieldFrustum, seq<PlaneImageInfo>)>)
    returns (planes: seq<Plane>)
    ensures |planes| == |interpolationInfos|
    ensures forall i :: 0 <= i < |planes| ==>
      var (info, frustum, infos) := interpolationInfos[i];
      && planes[i].topLeft == info.topLeft.Xyz() && planes[i].topRight == info.topRight.Xyz()
      && planes[i].bottomLeft == info.bottomLeft.Xyz() && planes[i].bottomRight == info.bottomRight.Xyz()
      && planes[i].normal == info.normal.Xyz()
      && planes[i].imageInfos == infos && planes[i].frustum == frustum
  {
    planes := [];
    for i := 0 to |interpolationInfos|
      invariant |planes| == i
      invariant forall j :: 0 <= j < i ==>
        planes[j] == NewPlane(interpolationInfos[j].0, interpolationInfos[j].1, interpolationInfos[j].2)
    {
      var (info, frustum, infos) := interpolationInfos[i];
      planes := planes + [NewPlane(info, frustum, infos)];
    }
  }

  // ---------------------------------------------------------------------
  // Geometry

  /** Intersection of the line `origin + t * direction` with the plane through
      `topLeft` with normal `normal`. None when the line is parallel to the
      plane, and also when the origin already lies in the plane. */
  function PlaneLineIntersection(plane: Plane, origin: Vec3, direction: Vec3): (r: Option<Vec3>)
    ensures r.None? <==>
      plane.normal.Dot(direction) == 0.0 || plane.topLeft.Sub(origin).Dot(plane.normal) == 0.0
    ensures r.Some? ==> plane.topLeft.Sub(r.value).Dot(plane.normal) == 0.0
    ensures r.Some? ==>
      r.value == origin.Add(direction.Scale(plane.topLeft.Sub(origin).Dot(plane.normal) / plane.normal.Dot(direction)))
  {
    var numerator := plane.topLeft.Sub(origin).Dot(plane.normal);
    var denominator := plane.normal.Dot(direction);
    if denominator == 0.0 then None
    else if numerator == 0.0 then None
    else
      var distance := numerator / denominator;
      var p := origin.Add(direction.Scale(distance));
      assert plane.topLeft.Sub(p).Dot(plane.normal) == numerator - distance * denominator;
      Some(p)
  }

  /** Signed length of the projection of `target - reference` onto `normal`. */
  function DistanceToLine(reference: Vec3, normal: Vec3, target: Vec3, magnitude: Vec3 -> real): real
    requires magnitude(normal) != 0.0
  {
    normal.Dot(target.Sub(reference)) / magnitude(normal)
  }

  /** The plane has edges of non-zero length, so the divisions below are
      defined. */
  predicate NonDegenerate(plane: Plane, magnitude: Vec3 -> real) {
    magnitude(plane.topRight.Sub(plane.topLeft)) != 0.0 &&
    magnitude(plane.bottomLeft.Sub(plane.topLeft)) != 0.0
  }

  /** Plane-local coordinates of `point`. As written, `x` projects onto the
      vertical edge and divides by the horizontal edge's length, and `y` the
      other way round (see BarycentricsOfRectangle). */
  function CalculateBarycentrics(plane: Plane, point: Vec3, magnitude: Vec3 -> real): Vec2
    requires NonDegenerate(plane, magnitude)
  {
    var horizontal := plane.topRight.Sub(plane.topLeft);
    var vertical := plane.bottomLeft.Sub(plane.topLeft);
    Vec2(DistanceToLine(plane.topLeft, vertical, point, magnitude) / magnitude(horizontal),
         DistanceToLine(plane.topLeft, horizontal, point, magnitude) / magnitude(vertical))
  }

  /** The top-left corner has coordinates (0, 0). */
  lemma BarycentricsOfTopLeft(plane: Plane, magnitude: Vec3 -> real)
    requires NonDegenerate(plane, magnitude)
    ensures CalculateBarycentrics(plane, plane.topLeft, magnitude) == Vec2(0.0, 0.0)
  {
  }

  /** On a rectangular plane, the point `topLeft + a * horizontal + b * vertical`
      gets x = b * |vertical| / |horizontal| and y = a * |horizontal| / |vertical|:
      x follows the vertical edge. */
  lemma BarycentricsOfRectangle(plane: Plane, a: real, b: real, magnitude: Vec3 -> real)
    requires IsMagnitude(magnitude) && NonDegenerate(plane, magnitude)
    requires plane.topRight.Sub(plane.topLeft).Dot(plane.bottomLeft.Sub(plane.topLeft)) == 0.0
    ensures var h := plane.topRight.Sub(plane.topLeft);
            var v := plane.bottomLeft.Sub(plane.topLeft);
            var point := plane.topLeft.Add(h.Scale(a)).Add(v.Scale(b));
            CalculateBarycentrics(plane, point, magnitude)
              == Vec2(b * magnitude(v) / magnitude(h), a * magnitude(h) / magnitude(v))
  {
    var h := plane.topRight.Sub(plane.topLeft);
    var v := plane.bottomLeft.Sub(plane.topLeft);
    var point := plane.topLeft.Add(h.Scale(a)).Add(v.Scale(b));
    var offset := point.Sub(plane.topLeft);
    assert offset == h.Scale(a).Add(v.Scale(b));
    var mh, mv := magnitude(h), magnitude(v);
    assert mh * mh == h.Dot(h) && mv * mv == v.Dot(v);
    DotOfCombination(v, h, v, a, b);
    DotOfCombination(h, h, v, a, b);
    DotSymmetric(h, v);
    assert v.Dot(offset) == b * (mv * mv);
    assert h.Dot(offset) == a * (mh * mh);
    CancelFactor(b, mv);
    CancelFactor(a, mh);
  }

  // ---------------------------------------------------------------------
  // Nearest image centre per quadrant

  /** The four search directions, relative to the query point (y grows
      downwards, x to the right). */
  datatype Quadrant = BottomRight | TopRight | BottomLeft | TopLeft

  predicate InQuadrant(q: Quadrant, xDiff: real, yDiff: real) {
    match q
    case BottomRight => xDiff >= 0.0 && yDiff >= 0.0
    case TopRight => xDiff >= 0.0 && yDiff <= 0.0
    case BottomLeft => xDiff <= 0.0 && yDiff >= 0.0
    case TopLeft => xDiff <= 0.0 && yDiff <= 0.0
  }

  /** A centre exactly at the query point is a candidate in every quadrant. */
  lemma QueryPointInEveryQuadrant(q: Quadrant)
    ensures InQuadrant(q, 0.0, 0.0)
  {
  }

  /** `f32::MAX`, the initial bound of the search. */
  const F32Max: real := 340282346638528859811704183484516925440.0

  predicate Candidate(q: Quadrant, bary: Vec2, info: PlaneImageInfo) {
    InQuadrant(q, info.center.x - bary.x, info.center.y - bary.y)
  }

  /** Squared distance from the query point to an image centre. The source
      ranks by the distance itself; the square root is monotone, so both
      rankings agree, and the bound is squared too. */
  function DistanceSq(bary: Vec2, info: PlaneImageInfo): real {
    (info.center.x - bary.x) * (info.center.x - bary.x) + (info.center.y - bary.y) * (info.center.y - bary.y)
  }

  function Passes(q: Quadrant, bary: Vec2): PlaneImageInfo -> bool {
    info => Candidate(q, bary, info)
  }

  function Score(bary: Vec2): PlaneImageInfo -> real {
    info => DistanceSq(bary, info)
  }

  /** An image found by the search: its slot (as i32) and its centre. */
  datatype Found = Found(index: I32, center: Vec2)

  /** What `find_closest` returns, as a function of the image list. */
  function Closest(infos: seq<PlaneImageInfo>, bary: Vec2, q: Quadrant): Option<Found> {
    match Search.FirstArgmin(infos, Passes(q, bary), Score(bary), F32Max * F32Max, |infos|)
    case None => None
    case Some(k) => Some(Found(AsI32(infos[k].imageIndex), infos[k].center))
  }

  /** The search finds nothing exactly when no centre lies in the quadrant
      (within `f32::MAX`); otherwise it returns a centre in the quadrant that
      is nearest among all of them, the earliest one on ties. */
  lemma ClosestIsNearest(infos: seq<PlaneImageInfo>, bary: Vec2, q: Quadrant)
    ensures Closest(infos, bary, q).None? <==>
      forall j :: 0 <= j < |infos| ==> !(Candidate(q, bary, infos[j]) && DistanceSq(bary, infos[j]) < F32Max * F32Max)
    ensures Closest(infos, bary, q).Some? ==>
      exists k ::
        && 0 <= k < |infos|
        && Closest(infos, bary, q) == Some(Found(AsI32(infos[k].imageIndex), infos[k].center))
        && Candidate(q, bary, infos[k])
        && (forall j :: 0 <= j < |infos| && Candidate(q, bary, infos[j]) ==> DistanceSq(bary, infos[k]) <= DistanceSq(bary, infos[j]))
        && (forall j :: 0 <= j < k && Candidate(q, bary, infos[j]) ==> DistanceSq(bary, infos[k]) < DistanceSq(bary, infos[j]))
  {
    Search.FirstArgminIsFirstMinimum(infos, Passes(q, bary), Score(bary), F32Max * F32Max, |infos|);
  }

  /** `find_closest` and its four quadrant wrappers: one pass over the plane's
      images keeping the nearest candidate so far. */
  method FindClosest(plane: Plane, bary: Vec2, q: Quadrant) returns (r: Option<Found>)
    ensures r == Closest(plane.imageInfos, bary, q)
  {
    var infos := plane.imageInfos;
    var minimalDistance := F32Max * F32Max;
    var infoBary := Vec2(0.0, 0.0);
    var imageInfoIndex: Option<U32> := None;
    ghost var best: Option<nat> := None;
    for i := 0 to |infos|
      invariant best == Search.FirstArgmin(infos, Passes(q, bary), Score(bary), F32Max * F32Max, i)
      invariant best.None? ==> imageInfoIndex.None? && minimalDistance == F32Max * F32Max
      invariant best.Some? ==>
        imageInfoIndex == Some(infos[best.value].imageIndex) && infoBary == infos[best.value].center &&
        minimalDistance == DistanceSq(bary, infos[best.value])
    {
      var info := infos[i];
      var xDiff := info.center.x - bary.x;
      var yDiff := info.center.y - bary.y;
      assert Passes(q, bary)(info) == InQuadrant(q, xDiff, yDiff);
      if InQuadrant(q, xDiff, yDiff) {
        var newDistance := xDiff * xDiff + yDiff * yDiff;
        assert Score(bary)(info) == newDistance;
        if newDistance < minimalDistance {
          minimalDistance := newDistance;
          imageInfoIndex := Some(info.imageIndex);
          infoBary := info.center;
          best := Some(i);
        }
      }
    }
    match imageInfoIndex
    case Some(index) => r := Some(Found(AsI32(index), infoBary));
    case None => r := None;
  }

  // ---------------------------------------------------------------------
  // Turning search results into a selector

  datatype Selection = Selection(indices: Indices, bary: Vec2)

  /** `create_error!` with its message, or the panic of a failed `assert!`. */
  datatype SelectError = NothingFound(what: string) | OrderAssertion | NoFittingConstellation

  function SelectorOfOne(first: Option<Found>, what: string): (r: Result<Selection, SelectError>)
    ensures r.Ok? <==> first.Some?
    ensures r.Ok? ==> r.value == Selection(Indices(first.value.index, -1, -1, -1), Vec2(0.0, 0.0))
    ensures r.Err? ==> r.error == NothingFound(what)
  {
    match first
    case Some(f) => Ok(Selection(Indices(f.index, -1, -1, -1), Vec2(0.0, 0.0)))
    case None => Err(NothingFound(what))
  }

  /** Two images stacked vertically; the weight is the distance from the
      query point down to the lower centre, not normalised. */
  function SelectorOfTwoY(above: Option<Found>, below: Option<Found>, barycentric: Vec2, what: string)
    : (r: Result<Selection, SelectError>)
    ensures above.Some? && below.Some? ==>
      (r.Ok? <==> above.value.center.y < below.value.center.y) &&
      (r.Ok? ==> r.value == Selection(Indices(above.value.index, below.value.index, -1, -1),
                                      Vec2(below.value.center.y - barycentric.y, 0.0))) &&
      (r.Err? ==> r.error == OrderAssertion)
    ensures above.Some? && below.None? ==> r == SelectorOfOne(above, "")
    ensures above.None? && below.Some? ==> r == SelectorOfOne(below, "")
    ensures above.None? && below.None? ==> r == Err(NothingFound(what))
  {
    match (above, below)
    case (Some(a), Some(b)) =>
      if a.center.y < b.center.y
      then Ok(Selection(Indices(a.index, b.index, -1, -1), Vec2(b.center.y - barycentric.y, 0.0)))
      else Err(OrderAssertion)
    case (Some(_), None) => SelectorOfOne(above, "")
    case (None, Some(_)) => SelectorOfOne(below, "")
    case (None, None) => Err(NothingFound(what))
  }

  /** Two images side by side; the weight is the distance from the query
      point to the right centre, not normalised. */
  function SelectorOfTwoX(left: Option<Found>, right: Option<Found>, barycentric: Vec2, what: string)
    : (r: Result<Selection, SelectError>)
    ensures left.Some? && right.Some? ==>
      (r.Ok? <==> left.value.center.x < right.value.center.x) &&
      (r.Ok? ==> r.value == Selection(Indices(left.value.index, right.value.index, -1, -1),
                                      Vec2(right.value.center.x - barycentric.x, 0.0))) &&
      (r.Err? ==> r.error == OrderAssertion)
    ensures left.Some? && right.None? ==> r == SelectorOfOne(left, "")
    ensures left.None? && right.Some? ==> r == SelectorOfOne(right, "")
    ensures left.None? && right.None? ==> r == Err(NothingFound(what))
  {
    match (left, right)
    case (Some(l), Some(rt)) =>
      if l.center.x < rt.center.x
      then Ok(Selection(Indices(l.index, rt.index, -1, -1), Vec2(rt.center.x - barycentric.x, 0.0)))
      else Err(OrderAssertion)
    case (Some(_), None) => SelectorOfOne(left, "")
    case (None, Some(_)) => SelectorOfOne(right, "")
    case (None, None) => Err(NothingFound(what))
  }

  function CountSome(a: Option<Found>, b: Option<Found>, c: Option<Found>, d: Option<Found>): nat {
    (if a.Some? then 1 else 0) + (if b.Some? then 1 else 0) + (if c.Some? then 1 else 0) + (if d.Some? then 1 else 0)
  }

  /** Number of leading slots in use before the first -1. */
  function ActiveSlots(ix: Indices): nat {
    if ix.i0 == -1 then 0 else if ix.i1 == -1 then 1 else if ix.i2 == -1 then 2 else if ix.i3 == -1 then 3 else 4
  }

  /** Once a slot is -1, every later slot is -1 too. */
  predicate SentinelTerminated(ix: Indices) {
    (ix.i0 == -1 ==> ix.i1 == -1) && (ix.i1 == -1 ==> ix.i2 == -1) && (ix.i2 == -1 ==> ix.i3 == -1)
  }

  /** The four-quadrant case analysis of a viewer in front of the plane. */
  function SelectorOfFour(topLeft: Option<Found>, bottomLeft: Option<Found>, topRight: Option<Found>,
                          bottomRight: Option<Found>, barycentric: Vec2): (r: Result<Selection, SelectError>)
    ensures CountSome(topLeft, bottomLeft, topRight, bottomRight) == 4 ==>
      r == Ok(Selection(Indices(bottomLeft.value.index, topLeft.value.index, bottomRight.value.index, topRight.value.index),
                        Vec2(bottomRight.value.center.x - barycentric.x, bottomRight.value.center.y - barycentric.y)))
    ensures bottomRight.Some? && topLeft.None? && bottomLeft.None? && topRight.None? ==>
      r == Ok(Selection(Indices(bottomRight.value.index, -1, -1, -1), Vec2(0.0, 0.0)))
    ensures topRight.Some? && topLeft.None? && bottomLeft.None? && bottomRight.None? ==>
      r == Ok(Selection(Indices(topRight.value.index, -1, -1, -1), Vec2(0.0, 0.0)))
    ensures bottomLeft.Some? && topLeft.None? && topRight.None? && bottomRight.None? ==>
      r == Ok(Selection(Indices(bottomLeft.value.index, -1, -1, -1), Vec2(0.0, 0.0)))
    ensures topLeft.Some? && bottomLeft.None? && topRight.None? && bottomRight.None? ==>
      r == Ok(Selection(Indices(topLeft.value.index, -1, -1, -1), Vec2(0.0, 0.0)))
    ensures CountSome(topLeft, bottomLeft, topRight, bottomRight) == 0 ==> r == Err(NoFittingConstellation)
    ensures CountSome(topLeft, bottomLeft, topRight, bottomRight) == 3 ==> r == Err(NoFittingConstellation)
    ensures (topLeft.Some? && bottomRight.Some? && bottomLeft.None? && topRight.None?) ||
            (bottomLeft.Some? && topRight.Some? && topLeft.None? && bottomRight.None?)
            ==> r == Err(NoFittingConstellation)
    ensures bottomLeft.Some? && bottomRight.Some? && topLeft.None? && topRight.None? ==>
      r == SelectorOfTwoX(bottomLeft, bottomRight, barycentric, "")
    ensures topLeft.Some? && topRight.Some? && bottomLeft.None? && bottomRight.None? ==>
      r == SelectorOfTwoX(topLeft, topRight, barycentric, "")
    ensures topRight.Some? && bottomRight.Some? && topLeft.None? && bottomLeft.None? ==>
      r == SelectorOfTwoY(topRight, bottomRight, barycentric, "")
    ensures topLeft.Some? && bottomLeft.Some? && topRight.None? && bottomRight.None? ==>
      r == SelectorOfTwoY(topLeft, bottomLeft, barycentric, "")
  {
    match (bottomLeft, topLeft, bottomRight, topRight)
    case (Some(bl), Some(tl), Some(br), Some(tr)) =>
      Ok(Selection(Indices(bl.index, tl.index, br.index, tr.index),
                   Vec2(br.center.x - barycentric.x, br.center.y - barycentric.y)))
    case (Some(_), None, Some(_), None) => SelectorOfTwoX(bottomLeft, bottomRight, barycentric, "")
    case (None, Some(_), None, Some(_)) => SelectorOfTwoX(topLeft, topRight, barycentric, "")
    case (None, None, Some(_), Some(_)) => SelectorOfTwoY(topRight, bottomRight, barycentric, "")
    case (Some(_), Some(_), None, None) => SelectorOfTwoY(topLeft, bottomLeft, barycentric, "")
    case (None, None, Some(br), None) => Ok(Selection(Indices(br.index, -1, -1, -1), Vec2(0.0, 0.0)))
    case (None, None, None, Some(tr)) => Ok(Selection(Indices(tr.index, -1, -1, -1), Vec2(0.0, 0.0)))
    case (Some(bl), None, None, None) => Ok(Selection(Indices(bl.index, -1, -1, -1), Vec2(0.0, 0.0)))
    case (None, Some(tl), None, None) => Ok(Selection(Indices(tl.index, -1, -1, -1), Vec2(0.0, 0.0)))
    case _ => Err(NoFittingConstellation)
  }

  predicate NonNegativeIndex(f: Option<Found>) {
    f.Some? ==> f.value.index >= 0
  }

  /** Every selector the four-quadrant analysis produces is -1-terminated and
      uses exactly as many slots as images were found (1, 2 or 4). */
  lemma SelectorOfFourSlots(topLeft: Option<Found>, bottomLeft: Option<Found>, topRight: Option<Found>,
                            bottomRight: Option<Found>, barycentric: Vec2)
    requires NonNegativeIndex(topLeft) && NonNegativeIndex(bottomLeft)
    requires NonNegativeIndex(topRight) && NonNegativeIndex(bottomRight)
    ensures var r := SelectorOfFour(topLeft, bottomLeft, topRight, bottomRight, barycentric);
      r.Ok? ==>
        && SentinelTerminated(r.value.indices)
        && ActiveSlots(r.value.indices) == CountSome(topLeft, bottomLeft, topRight, bottomRight)
        && ActiveSlots(r.value.indices) in {1, 2, 4}
  {
  }

  // ---------------------------------------------------------------------
  // Region dispatch

  /** The nine regions around the plane, the plane itself being `Inside`. */
  datatype Region = AboveLeft | Above | AboveRight | Left | Inside | Right | BelowLeft | Below | BelowRight

  function RegionOf(b: Vec2): (r: Region)
    ensures r == Inside <==> 0.0 <= b.x <= 1.0 && 0.0 <= b.y <= 1.0
    ensures r in {AboveLeft, Above, AboveRight} <==> b.y < 0.0
    ensures r in {BelowLeft, Below, BelowRight} <==> b.y > 1.0
    ensures r in {AboveLeft, Left, BelowLeft} <==> b.x < 0.0
    ensures r in {AboveRight, Right, BelowRight} <==> b.x > 1.0
  {
    if b.y < 0.0 then
      (if b.x < 0.0 then AboveLeft else if b.x > 1.0 then AboveRight else Above)
    else if b.y > 1.0 then
      (if b.x < 0.0 then BelowLeft else if b.x > 1.0 then BelowRight else Below)
    else
      (if b.x < 0.0 then Left else if b.x > 1.0 then Right else Inside)
  }

  /** The selector the source computes for a viewer at plane coordinates `b`. */
  function ViewerSelection(plane: Plane, b: Vec2): Result<Selection, SelectError> {
    var infos := plane.imageInfos;
    match RegionOf(b)
    case AboveLeft => SelectorOfOne(Closest(infos, Vec2(0.0001, 0.0001), BottomRight), "bottom right")
    case AboveRight => SelectorOfOne(Closest(infos, Vec2(0.9999, 0.0001), BottomLeft), "bottom left")
    case Above =>
      SelectorOfTwoX(Closest(infos, Vec2(b.x, 0.0001), BottomLeft), Closest(infos, Vec2(b.x, 0.0001), BottomRight),
                     Vec2(b.x, 0.0001), "bottom left and bottom right")
    case BelowLeft => SelectorOfOne(Closest(infos, Vec2(0.0001, 0.9999), TopRight), "top right")
    case BelowRight => SelectorOfOne(Closest(infos, Vec2(0.9999, 0.9999), TopLeft), "top left")
    case Below =>
      SelectorOfTwoX(Closest(infos, Vec2(b.x, 0.9999), TopLeft), Closest(infos, Vec2(b.x, 0.9999), TopRight),
                     Vec2(b.x, 0.9999), "top right and top left")
    case Left =>
      SelectorOfTwoY(Closest(infos, Vec2(0.0001, b.y), TopRight), Closest(infos, Vec2(0.0001, b.y), BottomRight),
                     Vec2(0.0001, b.y), "bottom right and top right")
    case Right =>
      SelectorOfTwoY(Closest(infos, Vec2(0.9999, b.y), TopLeft), Closest(infos, Vec2(0.9999, b.y), BottomLeft),
                     Vec2(0.9999, b.y), "bottom left and top left")
    case Inside =>
      SelectorOfFour(Closest(infos, b, TopLeft), Closest(infos, b, BottomLeft), Closest(infos, b, TopRight),
                     Closest(infos, b, BottomRight), b)
  }

  /** A coordinate off the plane is pulled just inside it before searching. */
  function Clamp(c: real): (r: real)
    ensures 0.0 <= c <= 1.0 ==> r == c
    ensures 0.0 < r < 1.0 || r == c
  {
    if c < 0.0 then 0.0001 else if c > 1.0 then 0.9999 else c
  }

  /** The same dispatch written with one clamped query point per region. */
  function ClampedSelection(plane: Plane, b: Vec2): Result<Selection, SelectError> {
    var p := Vec2(Clamp(b.x), Clamp(b.y));
    var infos := plane.imageInfos;
    match RegionOf(b)
    case AboveLeft => SelectorOfOne(Closest(infos, p, BottomRight), "bottom right")
    case AboveRight => SelectorOfOne(Closest(infos, p, BottomLeft), "bottom left")
    case BelowLeft => SelectorOfOne(Closest(infos, p, TopRight), "top right")
    case BelowRight => SelectorOfOne(Closest(infos, p, TopLeft), "top left")
    case Above => SelectorOfTwoX(Closest(infos, p, BottomLeft), Closest(infos, p, BottomRight), p, "bottom left and bottom right")
    case Below => SelectorOfTwoX(Closest(infos, p, TopLeft), Closest(infos, p, TopRight), p, "top right and top left")
    case Left => SelectorOfTwoY(Closest(infos, p, TopRight), Closest(infos, p, BottomRight), p, "bottom right and top right")
    case Right => SelectorOfTwoY(Closest(infos, p, TopLeft), Closest(infos, p, BottomLeft), p, "bottom left and top left")
    case Inside => SelectorOfFour(Closest(infos, p, TopLeft), Closest(infos, p, BottomLeft), Closest(infos, p, TopRight),
                                  Closest(infos, p, BottomRight), p)
  }

  /** Every search of the dispatch runs at the viewer's coordinates clamped
      to 0.0001 / 0.9999 on each axis where the viewer is off the plane. */
  lemma ViewerSelectionSearchesClampedPoint(plane: Plane, b: Vec2)
    ensures ViewerSelection(plane, b) == ClampedSelection(plane, b)
  {
  }

  /** A viewer in a corner region gets a single-image selector or an error;
      one in an edge region gets at most two images. */
  lemma RegionSlotCounts(plane: Plane, b: Vec2)
    ensures var r := ViewerSelection(plane, b);
      r.Ok? && RegionOf(b) in {AboveLeft, AboveRight, BelowLeft, BelowRight} ==>
        r.value.indices.i1 == -1 && r.value.indices.i2 == -1 && r.value.indices.i3 == -1
    ensures var r := ViewerSelection(plane, b);
      r.Ok? && RegionOf(b) != Inside ==> r.value.indices.i2 == -1 && r.value.indices.i3 == -1
  {
  }

  /** The region dispatch of `calculate_interpolation` for one plane. */
  method SelectForViewer(plane: Plane, b: Vec2) returns (r: Result<Selection, SelectError>)
    ensures r == ViewerSelection(plane, b)
  {
    if b.y < 0.0 {
      if b.x < 0.0 {
        var br := FindClosest(plane, Vec2(0.0001, 0.0001), BottomRight);
        r := SelectorOfOne(br, "bottom right");
      } else if b.x > 1.0 {
        var bl := FindClosest(plane, Vec2(0.9999, 0.0001), BottomLeft);
        r := SelectorOfOne(bl, "bottom left");
      } else {
        var bl := FindClosest(plane, Vec2(b.x, 0.0001), BottomLeft);
        var br := FindClosest(plane, Vec2(b.x, 0.0001), BottomRight);
        r := SelectorOfTwoX(bl, br, Vec2(b.x, 0.0001), "bottom left and bottom right");
      }
    } else if b.y > 1.0 {
      if b.x < 0.0 {
        var tr := FindClosest(plane, Vec2(0.0001, 0.9999), TopRight);
        r := SelectorOfOne(tr, "top right");
      } else if b.x > 1.0 {
        var tl := FindClosest(plane, Vec2(0.9999, 0.9999), TopLeft);
        r := SelectorOfOne(tl, "top left");
      } else {
        var tl := FindClosest(plane, Vec2(b.x, 0.9999), TopLeft);
        var tr := FindClosest(plane, Vec2(b.x, 0.9999), TopRight);
        r := SelectorOfTwoX(tl, tr, Vec2(b.x, 0.9999), "top right and top left");
      }
    } else {
      if b.x < 0.0 {
        var tr := FindClosest(plane, Vec2(0.0001, b.y), TopRight);
        var br := FindClosest(plane, Vec2(0.0001, b.y), BottomRight);
        r := SelectorOfTwoY(tr, br, Vec2(0.0001, b.y), "bottom right and top right");
      } else if b.x > 1.0 {
        var tl := FindClosest(plane, Vec2(0.9999, b.y), TopLeft);
        var bl := FindClosest(plane, Vec2(0.9999, b.y), BottomLeft);
        r := SelectorOfTwoY(tl, bl, Vec2(0.9999, b.y), "bottom left and top left");
      } else {
        var tl := FindClosest(plane, b, TopLeft);
        var bl := FindClosest(plane, b, BottomLeft);
        var tr := FindClosest(plane, b, TopRight);
        var br := FindClosest(plane, b, BottomRight);
        r := SelectorOfFour(tl, bl, tr, br, b);
      }
    }
  }

  // ---------------------------------------------------------------------
  // The per-frame loop over all planes

  /** What the loop computes for one plane: nothing when the viewer's
      projection does not exist, otherwise the dispatch's result. */
  function PlaneOutcome(plane: Plane, position: Vec3, magnitude: Vec3 -> real): Option<Result<Selection, SelectError>>
    requires NonDegenerate(plane, magnitude)
  {
    match PlaneLineIntersection(plane, position, plane.normal.Neg())
    case None => None
    case Some(viewerPoint) => Some(ViewerSelection(plane, CalculateBarycentrics(plane, viewerPoint, magnitude)))
  }

  predicate Fails(outcome: Option<Result<Selection, SelectError>>) {
    outcome.Some? && outcome.value.Err?
  }

  /** A plane record after the loop wrote its selector (or left it alone). */
  function Applied(entry: PlaneInfo, outcome: Option<Result<Selection, SelectError>>): PlaneInfo {
    if outcome.Some? && outcome.value.Ok?
    then entry.(indices := outcome.value.value.indices, bary := outcome.value.value.bary)
    else entry
  }

  /** `calculate_interpolation`: walks the planes in order and writes each
      reachable plane's selector; the first selector error ends the walk and
      is returned, and planes from there on keep their old selector. */
  method CalculateInterpolation(planes: seq<Plane>, myPosition: Vec3, selector: array<PlaneInfo>, magnitude: Vec3 -> real)
    returns (r: Result<(), SelectError>)
    requires |planes| <= selector.Length
    requires forall i :: 0 <= i < |planes| ==> NonDegenerate(planes[i], magnitude)
    modifies selector
    ensures r.Ok? ==> forall i :: 0 <= i < |planes| ==> !Fails(PlaneOutcome(planes[i], myPosition, magnitude))
    ensures r.Ok? ==> forall i :: 0 <= i < |planes| ==>
      selector[i] == Applied(old(selector[i]), PlaneOutcome(planes[i], myPosition, magnitude))
    ensures r.Err? ==> exists k ::
      && 0 <= k < |planes|
      && PlaneOutcome(planes[k], myPosition, magnitude) == Some(Err(r.error))
      && (forall i :: 0 <= i < k ==> !Fails(PlaneOutcome(planes[i], myPosition, magnitude)))
      && (forall i :: 0 <= i < k ==> selector[i] == Applied(old(selector[i]), PlaneOutcome(planes[i], myPosition, magnitude)))
      && (forall i :: k <= i < |planes| ==> selector[i] == old(selector[i]))
    ensures forall i :: |planes| <= i < selector.Length ==> selector[i] == old(selector[i])
  {
    for i := 0 to |planes|
      invariant forall j :: 0 <= j < i ==> !Fails(PlaneOutcome(planes[j], myPosition, magnitude))
      invariant forall j :: 0 <= j < i ==> selector[j] == Applied(old(selector[j]), PlaneOutcome(planes[j], myPosition, magnitude))
      invariant forall j :: i <= j < selector.Length ==> selector[j] == old(selector[j])
    {
      var plane := planes[i];
      var intersection := PlaneLineIntersection(plane, myPosition, plane.normal.Neg());
      if intersection.Some? {
        var viewerBarycentric := CalculateBarycentrics(plane, intersection.value, magnitude);
        var selection := SelectForViewer(plane, viewerBarycentric);
        if selection.Err? {
          r := Err(selection.error);
          return;
        }
        selector[i] := selector[i].(indices := selection.value.indices, bary := selection.value.bary);
      }
    }
    r := Ok(());
  }
}
