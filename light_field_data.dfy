// The planes of a light field: the layer images of all cameras grouped by
// layer, one plane per layer at the layer's average depth, and each image's
// rectangle inside its plane as fractions of the plane's width and height.
module LightFieldData {
  import opened Wrappers
  import opened Vectors
  import opened RealArithmetic
  import CameraFrustums
  import ConfigLoader

  /** Where one image lies inside its plane, as fractions of the plane's width
      (left, right) and height (top, bottom). */
  datatype PlaneImageRatios = PlaneImageRatios(left: real, right: real, top: real, bottom: real)

  // ---------------------------------------------------------------------
  // The light field's outer frustum

  /** A plane of the light field's viewing frustum, by a point and a normal. */
  datatype FrustumPlane = FrustumPlane(point: Vec3, normal: Vec3)

  datatype LightFieldFrustum = LightFieldFrustum(left: FrustumPlane, right: FrustumPlane, top: FrustumPlane, bottom: FrustumPlane)

  /** `FrustumPlane::new`: the plane through `pointInPlane` spanned by two
      directions; `normalize` stands for the vector normalisation. */
  function NewFrustumPlane(pointInPlane: Vec3, first: Vec3, second: Vec3, normalize: Vec3 -> Vec3): FrustumPlane {
    FrustumPlane(pointInPlane, normalize(first.Cross(second)))
  }

  /** When the normalisation rescales the cross product, the plane contains
      both spanning directions. */
  lemma FrustumPlaneSpannedByDirections(pointInPlane: Vec3, first: Vec3, second: Vec3, normalize: Vec3 -> Vec3, s: real)
    requires normalize(first.Cross(second)) == first.Cross(second).Scale(s)
    ensures var p := NewFrustumPlane(pointInPlane, first, second, normalize);
      && p.point == pointInPlane
      && p.normal.Dot(first) == 0.0 && p.normal.Dot(second) == 0.0
  {
    var c := first.Cross(second);
    assert c.Dot(first) == 0.0;
    assert c.Dot(second) == 0.0;
    DotOfCombination(first, c, Zero3, s, 0.0);
    DotOfCombination(second, c, Zero3, s, 0.0);
    assert c.Scale(s) == c.Scale(s).Add(Zero3.Scale(0.0));
  }

  /** `is_above`: p lies strictly on the side the normal points away from. */
  predicate IsAbove(plane: FrustumPlane, p: Vec3) {
    plane.normal.Dot(plane.point.Sub(p)) > 0.0
  }

  /** Stepping from the plane's point against its (non-zero) normal is above
      the plane exactly for positive steps. */
  lemma IsAboveAgainstNormal(plane: FrustumPlane, t: real)
    requires plane.normal.Dot(plane.normal) > 0.0
    ensures IsAbove(plane, plane.point.Sub(plane.normal.Scale(t))) <==> t > 0.0
  {
    var n := plane.normal;
    assert plane.point.Sub(plane.point.Sub(n.Scale(t))) == n.Scale(t);
    assert n.Dot(n.Scale(t)) == t * n.Dot(n);
  }

  lemma PlanePointsNotAbove(plane: FrustumPlane, p: Vec3)
    requires plane.normal.Dot(plane.point.Sub(p)) == 0.0
    ensures !IsAbove(plane, p)
  {
  }

  /** `LightFieldFrustum::new`: the four side planes through the outer corner
      rays of the four corner cameras. */
  function NewLightFieldFrustum(leftTopFrustum: CameraFrustums.Frustum, rightTopFrustum: CameraFrustums.Frustum,
                                leftBottomFrustum: CameraFrustums.Frustum, rightBottomFrustum: CameraFrustums.Frustum,
                                normalize: Vec3 -> Vec3): LightFieldFrustum
  {
    var leftTop := leftTopFrustum.leftTop;
    var rightTop := rightTopFrustum.rightTop;
    var leftBottom := leftBottomFrustum.leftBottom;
    var rightBottom := rightBottomFrustum.rightBottom;
    LightFieldFrustum(
      NewFrustumPlane(leftTop.center, leftTop.direction, leftBottom.direction, normalize),
      NewFrustumPlane(rightTop.center, rightBottom.direction, rightTop.direction, normalize),
      NewFrustumPlane(leftTop.center, rightTop.direction, leftTop.direction, normalize),
      NewFrustumPlane(leftBottom.center, leftBottom.direction, rightBottom.direction, normalize))
  }

  /** `check`: inside all four side planes. */
  predicate Check(frustum: LightFieldFrustum, p: Vec3) {
    IsAbove(frustum.left, p) && IsAbove(frustum.right, p) && IsAbove(frustum.top, p) && IsAbove(frustum.bottom, p)
  }

  /** A point lying on any of the four side planes fails the check. */
  lemma CheckRejectsSidePlanes(frustum: LightFieldFrustum, p: Vec3)
    requires || frustum.left.normal.Dot(frustum.left.point.Sub(p)) == 0.0
             || frustum.right.normal.Dot(frustum.right.point.Sub(p)) == 0.0
             || frustum.top.normal.Dot(frustum.top.point.Sub(p)) == 0.0
             || frustum.bottom.normal.Dot(frustum.bottom.point.Sub(p)) == 0.0
    ensures !Check(frustum, p)
  {
  }

  // ---------------------------------------------------------------------
  // Grouping the images into layers

  /** One layer image of one camera as the loader delivers it: the pixel
      buffer (a handle here), its layer index and its depth samples. */
  datatype LayerImage = LayerImage(image: nat, layerIndex: nat, depthValues: seq<real>)

  /** All layer images of camera (x, y). */
  datatype CameraImages = CameraImages(images: seq<LayerImage>, x: nat, y: nat)

  datatype PlaneImage = PlaneImage(image: nat, frustum: (nat, nat), depthValues: seq<real>)

  datatype QuantizedPlane = QuantizedPlane(images: seq<PlaneImage>, layerIndex: nat)

  /** The images of one camera, each with its layer index, in input order. */
  function Tagged(c: CameraImages): (r: seq<(PlaneImage, nat)>)
    ensures |r| == |c.images|
    ensures forall i :: 0 <= i < |r| ==>
      r[i] == (PlaneImage(c.images[i].image, (c.x, c.y), c.images[i].depthValues), c.images[i].layerIndex)
  {
    seq(|c.images|, i requires 0 <= i < |c.images| =>
      (PlaneImage(c.images[i].image, (c.x, c.y), c.images[i].depthValues), c.images[i].layerIndex))
  }

  /** All images of all cameras in the order the loops visit them. */
  function Flatten(d: seq<CameraImages>): seq<(PlaneImage, nat)> {
    if |d| == 0 then [] else Flatten(d[..|d| - 1]) + Tagged(d[|d| - 1])
  }

  /** `position`: the first group of the given layer. */
  function FindLayer(groups: seq<QuantizedPlane>, layer: nat): (r: Option<nat>)
    ensures r.Some? ==> r.value < |groups| && groups[r.value].layerIndex == layer
    ensures r.Some? ==> forall j :: 0 <= j < r.value ==> groups[j].layerIndex != layer
    ensures r.None? ==> forall j :: 0 <= j < |groups| ==> groups[j].layerIndex != layer
  {
    if |groups| == 0 then None
    else if groups[0].layerIndex == layer then Some(0)
    else match FindLayer(groups[1..], layer)
      case None => None
      case Some(k) => Some(k + 1)
  }

  /** One step of the grouping loop: join the layer's group, or open a new
      group at the end. */
  function AddImage(groups: seq<QuantizedPlane>, e: (PlaneImage, nat)): seq<QuantizedPlane> {
    match FindLayer(groups, e.1)
    case Some(index) => groups[index := groups[index].(images := groups[index].images + [e.0])]
    case None => groups + [QuantizedPlane([e.0], e.1)]
  }

  /** The groups after all of `flat` has gone through the loop. */
  function Group(flat: seq<(PlaneImage, nat)>): seq<QuantizedPlane> {
    if |flat| == 0 then [] else AddImage(Group(flat[..|flat| - 1]), flat[|flat| - 1])
  }

  function Layers(groups: seq<QuantizedPlane>): (r: seq<nat>)
    ensures |r| == |groups| && forall i :: 0 <= i < |r| ==> r[i] == groups[i].layerIndex
  {
    seq(|groups|, i requires 0 <= i < |groups| => groups[i].layerIndex)
  }

  function LayersOf(flat: seq<(PlaneImage, nat)>): (r: seq<nat>)
    ensures |r| == |flat| && forall i :: 0 <= i < |r| ==> r[i] == flat[i].1
  {
    seq(|flat|, i requires 0 <= i < |flat| => flat[i].1)
  }

  /** The distinct elements of s in the order they first occur. */
  function FirstAppearances(s: seq<nat>): seq<nat> {
    if |s| == 0 then []
    else var f := FirstAppearances(s[..|s| - 1]);
      if s[|s| - 1] in f then f else f + [s[|s| - 1]]
  }

  /** The images of layer l, in input order. */
  function ImagesOfLayer(flat: seq<(PlaneImage, nat)>, l: nat): seq<PlaneImage> {
    if |flat| == 0 then []
    else ImagesOfLayer(flat[..|flat| - 1], l) + (if flat[|flat| - 1].1 == l then [flat[|flat| - 1].0] else [])
  }

  /** First appearances hold every element once, and nothing else. */
  lemma {:induction false} FirstAppearancesDistinct(s: seq<nat>)
    ensures forall i, j :: 0 <= i < j < |FirstAppearances(s)| ==> FirstAppearances(s)[i] != FirstAppearances(s)[j]
    ensures forall x :: x in FirstAppearances(s) <==> x in s
  {
    if |s| > 0 {
      FirstAppearancesDistinct(s[..|s| - 1]);
      assert s == s[..|s| - 1] + [s[|s| - 1]];
    }
  }

  /** The groups' layers are the input's layers in order of first appearance. */
  lemma {:induction false} GroupLayersAreFirstAppearances(flat: seq<(PlaneImage, nat)>)
    ensures Layers(Group(flat)) == FirstAppearances(LayersOf(flat))
  {
    if |flat| > 0 {
      var init := flat[..|flat| - 1];
      var e := flat[|flat| - 1];
      GroupLayersAreFirstAppearances(init);
      assert LayersOf(flat)[..|flat| - 1] == LayersOf(init);
      var g := Group(init);
      match FindLayer(g, e.1)
      case Some(index) =>
        assert e.1 in Layers(g);
        assert Layers(AddImage(g, e)) == Layers(g);
      case None =>
        assert e.1 !in Layers(g);
        assert Layers(AddImage(g, e)) == Layers(g) + [e.1];
    }
  }

  /** Group layers are pairwise distinct, and every input layer has a group. */
  lemma GroupLayersDistinct(flat: seq<(PlaneImage, nat)>)
    ensures forall i, j :: 0 <= i < j < |Group(flat)| ==> Group(flat)[i].layerIndex != Group(flat)[j].layerIndex
    ensures forall k :: 0 <= k < |flat| ==> flat[k].1 in Layers(Group(flat))
  {
    GroupLayersAreFirstAppearances(flat);
    FirstAppearancesDistinct(LayersOf(flat));
    var ls := Layers(Group(flat));
    forall i, j | 0 <= i < j < |Group(flat)|
      ensures Group(flat)[i].layerIndex != Group(flat)[j].layerIndex
    {
      assert ls[i] != ls[j];
    }
    forall k | 0 <= k < |flat|
      ensures flat[k].1 in ls
    {
      assert LayersOf(flat)[k] == flat[k].1;
    }
  }

  /** Each group holds exactly the images of its layer, in input order. */
  lemma {:induction false} GroupHoldsImagesOfLayer(flat: seq<(PlaneImage, nat)>)
    ensures forall i :: 0 <= i < |Group(flat)| ==> Group(flat)[i].images == ImagesOfLayer(flat, Group(flat)[i].layerIndex)
  {
    if |flat| > 0 {
      var init := flat[..|flat| - 1];
      var e := flat[|flat| - 1];
      GroupHoldsImagesOfLayer(init);
      GroupLayersDistinct(init);
      var g := Group(init);
      assert flat[..|flat| - 1] == init;
      forall i | 0 <= i < |Group(flat)|
        ensures Group(flat)[i].images == ImagesOfLayer(flat, Group(flat)[i].layerIndex)
      {
        match FindLayer(g, e.1)
        case Some(index) =>
          assert Group(flat)[i].layerIndex == g[i].layerIndex;
          if i != index {
            assert g[i].layerIndex != e.1;
          }
        case None =>
          if i == |g| {
            forall k | 0 <= k < |init|
              ensures init[k].1 != e.1
            {
              assert init[k].1 in Layers(g);
            }
            ImagesOfAbsentLayer(init, e.1);
          }
      }
    }
  }

  /** A layer no image carries has no images. */
  lemma {:induction false} ImagesOfAbsentLayer(flat: seq<(PlaneImage, nat)>, l: nat)
    ensures (forall k :: 0 <= k < |flat| ==> flat[k].1 != l) ==> ImagesOfLayer(flat, l) == []
  {
    if |flat| > 0 {
      ImagesOfAbsentLayer(flat[..|flat| - 1], l);
    }
  }

  /** The images of a layer are those and only those tagged with it. */
  lemma {:induction false} ImagesOfLayerMembers(flat: seq<(PlaneImage, nat)>, l: nat)
    ensures forall k :: 0 <= k < |flat| && flat[k].1 == l ==> flat[k].0 in ImagesOfLayer(flat, l)
    ensures |ImagesOfLayer(flat, l)| <= |flat|
  {
    if |flat| > 0 {
      var init := flat[..|flat| - 1];
      ImagesOfLayerMembers(init, l);
      forall k | 0 <= k < |flat| && flat[k].1 == l
        ensures flat[k].0 in ImagesOfLayer(flat, l)
      {
        if k < |init| {
          assert init[k] == flat[k];
        }
      }
    }
  }

  /** Every image sits in the group of its own layer. */
  lemma EachImageInItsGroup(flat: seq<(PlaneImage, nat)>, k: nat)
    requires k < |flat|
    ensures exists i :: 0 <= i < |Group(flat)| && Group(flat)[i].layerIndex == flat[k].1 && flat[k].0 in Group(flat)[i].images
  {
    GroupLayersDistinct(flat);
    GroupHoldsImagesOfLayer(flat);
    ImagesOfLayerMembers(flat, flat[k].1);
    var i :| 0 <= i < |Layers(Group(flat))| && Layers(Group(flat))[i] == flat[k].1;
    assert Group(flat)[i].layerIndex == flat[k].1;
  }

  lemma GroupStep(done: seq<(PlaneImage, nat)>, t: seq<(PlaneImage, nat)>, j: nat)
    requires j < |t|
    ensures Group(done + t[..j + 1]) == AddImage(Group(done + t[..j]), t[j])
  {
    assert (done + t[..j + 1])[..|done| + j] == done + t[..j];
  }

  lemma FlattenStep(d: seq<CameraImages>, i: nat)
    requires i < |d|
    ensures Flatten(d[..i + 1]) == Flatten(d[..i]) + Tagged(d[i])
  {
    assert d[..i + 1][..i] == d[..i];
  }

  /** The grouping loops of `LightFieldData::new`. */
  method GroupImages(imageData: seq<CameraImages>) returns (groups: seq<QuantizedPlane>)
    ensures groups == Group(Flatten(imageData))
  {
    groups := [];
    for i := 0 to |imageData|
      invariant groups == Group(Flatten(imageData[..i]))
    {
      var camera := imageData[i];
      FlattenStep(imageData, i);
      ghost var done := Flatten(imageData[..i]);
      assert done + Tagged(camera)[..0] == done;
      for j := 0 to |camera.images|
        invariant groups == Group(done + Tagged(camera)[..j])
      {
        var image := camera.images[j];
        var planeImage := PlaneImage(image.image, (camera.x, camera.y), image.depthValues);
        GroupStep(done, Tagged(camera), j);
        ghost var before := groups;
        match FindLayer(groups, image.layerIndex)
        case Some(index) =>
          groups := groups[index := groups[index].(images := groups[index].images + [planeImage])];
        case None =>
          groups := groups + [QuantizedPlane([planeImage], image.layerIndex)];
        assert groups == AddImage(before, (planeImage, image.layerIndex));
      }
      assert Tagged(camera)[..|camera.images|] == Tagged(camera);
    }
    assert imageData[..|imageData|] == imageData;
  }

  /** Groups are never empty, and when every input image has a depth sample
      so does every grouped image. */
  lemma {:induction false} GroupsReady(flat: seq<(PlaneImage, nat)>)
    requires forall k :: 0 <= k < |flat| ==> |flat[k].0.depthValues| >= 1
    ensures forall i :: 0 <= i < |Group(flat)| ==> |Group(flat)[i].images| >= 1 && HasDepth(Group(flat)[i].images)
  {
    if |flat| > 0 {
      var init := flat[..|flat| - 1];
      GroupsReady(init);
    }
  }

  // ---------------------------------------------------------------------
  // Layer depth

  predicate HasDepth(images: seq<PlaneImage>) {
    forall i :: 0 <= i < |images| ==> |images[i].depthValues| >= 1
  }

  /** The sample `depth_values[len / 2]` a layer's depth is averaged from. */
  function MiddleSample(image: PlaneImage): real
    requires |image.depthValues| >= 1
  {
    image.depthValues[|image.depthValues| / 2]
  }

  function SumOfMiddles(images: seq<PlaneImage>): real
    requires HasDepth(images)
  {
    if |images| == 0 then 0.0 else SumOfMiddles(images[..|images| - 1]) + MiddleSample(images[|images| - 1])
  }

  /** A layer's depth: the mean of its images' middle samples. */
  function LayerDepth(images: seq<PlaneImage>): real
    requires |images| >= 1 && HasDepth(images)
  {
    SumOfMiddles(images) / |images| as real
  }

  /** The accumulation loop of `LightFieldData::new`. */
  method AverageDepth(images: seq<PlaneImage>) returns (layerDepth: real)
    requires |images| >= 1 && HasDepth(images)
    ensures layerDepth == LayerDepth(images)
  {
    var totalDepth := 0.0;
    var totalCount: nat := 0;
    for i := 0 to |images|
      invariant totalDepth == SumOfMiddles(images[..i]) && totalCount == i
    {
      var image := images[i];
      assert images[..i + 1][..i] == images[..i];
      totalDepth := totalDepth + image.depthValues[|image.depthValues| / 2];
      totalCount := totalCount + 1;
    }
    assert images[..|images|] == images;
    layerDepth := totalDepth / totalCount as real;
  }

  lemma {:induction false} SumOfMiddlesBounds(images: seq<PlaneImage>, lo: real, hi: real)
    requires HasDepth(images)
    requires forall i :: 0 <= i < |images| ==> lo <= MiddleSample(images[i]) <= hi
    ensures |images| as real * lo <= SumOfMiddles(images) <= |images| as real * hi
  {
    if |images| > 0 {
      var init := images[..|images| - 1];
      SumOfMiddlesBounds(init, lo, hi);
      assert |images| as real * lo == |init| as real * lo + lo;
      assert |images| as real * hi == |init| as real * hi + hi;
    }
  }

  /** The layer depth lies between the smallest and the largest middle
      sample; in particular a layer whose samples agree sits at that depth. */
  lemma LayerDepthBetweenSamples(images: seq<PlaneImage>, lo: real, hi: real)
    requires |images| >= 1 && HasDepth(images)
    requires forall i :: 0 <= i < |images| ==> lo <= MiddleSample(images[i]) <= hi
    ensures lo <= LayerDepth(images) <= hi
  {
    SumOfMiddlesBounds(images, lo, hi);
    MeanBetween(SumOfMiddles(images), |images| as real, lo, hi);
  }

  // ---------------------------------------------------------------------
  // Placing the images inside a plane

  /** The ratios and the centre of an image from camera `frustum`; the
      horizontal offset counts the second grid coordinate, the vertical
      offset the first. */
  function PlaceImage(baseline: real, totalWidth: real, totalHeight: real, frustumWidth: real, frustumHeight: real,
                      frustum: (nat, nat)): (PlaneImageRatios, Vec2)
    requires totalWidth != 0.0 && totalHeight != 0.0
  {
    var horizontalBaseLineRatio := baseline / totalWidth;
    var verticalBaseLineRatio := baseline / totalHeight;
    var widthRatio := frustumWidth / totalWidth;
    var heightRatio := frustumHeight / totalHeight;
    var left := horizontalBaseLineRatio * frustum.1 as real;
    var right := left + widthRatio;
    var top := verticalBaseLineRatio * frustum.0 as real;
    var bottom := top + heightRatio;
    (PlaneImageRatios(left, right, top, bottom), Vec2((left + right) / 2.0, (top + bottom) / 2.0))
  }

  /** Each image is one camera wide and tall, and its centre is the middle
      of its rectangle. */
  lemma PlacedRectangle(baseline: real, totalWidth: real, totalHeight: real, frustumWidth: real, frustumHeight: real,
                        frustum: (nat, nat))
    requires totalWidth != 0.0 && totalHeight != 0.0
    ensures var (r, c) := PlaceImage(baseline, totalWidth, totalHeight, frustumWidth, frustumHeight, frustum);
      && r.right - r.left == frustumWidth / totalWidth
      && r.bottom - r.top == frustumHeight / totalHeight
      && c.x - r.left == r.right - c.x && c.y - r.top == r.bottom - c.y
  {
  }

  /** Images of neighbouring cameras are one baseline apart, measured in
      plane fractions; the first camera starts at the plane's edge. */
  lemma NeighboursShiftByBaseline(baseline: real, totalWidth: real, totalHeight: real, frustumWidth: real,
                                  frustumHeight: real, x: nat, y: nat)
    requires totalWidth != 0.0 && totalHeight != 0.0
    ensures PlaceImage(baseline, totalWidth, totalHeight, frustumWidth, frustumHeight, (x, y + 1)).0.left
            - PlaceImage(baseline, totalWidth, totalHeight, frustumWidth, frustumHeight, (x, y)).0.left
            == baseline / totalWidth
    ensures PlaceImage(baseline, totalWidth, totalHeight, frustumWidth, frustumHeight, (x + 1, y)).0.top
            - PlaceImage(baseline, totalWidth, totalHeight, frustumWidth, frustumHeight, (x, y)).0.top
            == baseline / totalHeight
    ensures PlaceImage(baseline, totalWidth, totalHeight, frustumWidth, frustumHeight, (0, 0)).0.left == 0.0
    ensures PlaceImage(baseline, totalWidth, totalHeight, frustumWidth, frustumHeight, (0, 0)).0.top == 0.0
  {
  }

  /** When the plane is as wide as one camera plus `n - 1` baselines, the
      last of `n` cameras ends exactly at the plane's right edge (and the
      same downwards). */
  lemma LastCameraReachesEdge(baseline: real, totalWidth: real, totalHeight: real, frustumWidth: real,
                              frustumHeight: real, columns: nat, rows: nat)
    requires columns >= 1 && rows >= 1
    requires totalWidth == frustumWidth + baseline * (columns - 1) as real && totalWidth != 0.0
    requires totalHeight == frustumHeight + baseline * (rows - 1) as real && totalHeight != 0.0
    ensures PlaceImage(baseline, totalWidth, totalHeight, frustumWidth, frustumHeight, (rows - 1, columns - 1)).0.right == 1.0
    ensures PlaceImage(baseline, totalWidth, totalHeight, frustumWidth, frustumHeight, (rows - 1, columns - 1)).0.bottom == 1.0
  {
    var c := (columns - 1) as real;
    var r := (rows - 1) as real;
    assert baseline / totalWidth * c + frustumWidth / totalWidth == (baseline * c + frustumWidth) / totalWidth;
    assert baseline * c + frustumWidth == totalWidth;
    assert totalWidth / totalWidth == 1.0;
    assert baseline / totalHeight * r + frustumHeight / totalHeight == (baseline * r + frustumHeight) / totalHeight;
    assert baseline * r + frustumHeight == totalHeight;
    assert totalHeight / totalHeight == 1.0;
  }

  // ---------------------------------------------------------------------
  // The planes

  /** A plane at one layer's depth with the images placed on it (each pixel
      buffer is a handle). */
  datatype Plane = Plane(leftTop: Vec3, leftBottom: Vec3, rightTop: Vec3, rightBottom: Vec3,
                         content: seq<(nat, PlaneImageRatios, Vec2)>)

  /** The frustums of the four corner cameras. */
  datatype CornerFrustums = CornerFrustums(leftTop: CameraFrustums.Frustum, leftBottom: CameraFrustums.Frustum,
                                           rightTop: CameraFrustums.Frustum, rightBottom: CameraFrustums.Frustum)

  /** `get_corners_at_depth` of a camera frustum, whose definition is not
      part of this model. */
  type CornersAtDepth = (CameraFrustums.Frustum, real) -> CameraFrustums.Corners

  /** Layers deeper than this produce no plane. */
  const MaxLayerDepth: real := 100000.0

  /** Width and height of the whole plane at depth d: from the top-left
      camera's top-left corner to the top-right camera's top-right corner and
      to the bottom-left camera's bottom-left corner. */
  function TotalExtent(corners: CornerFrustums, cornersAt: CornersAtDepth, magnitude: Vec3 -> real, d: real): (real, real) {
    var leftTop := cornersAt(corners.leftTop, d).leftTop;
    (magnitude(leftTop.Sub(cornersAt(corners.rightTop, d).rightTop)),
     magnitude(leftTop.Sub(cornersAt(corners.leftBottom, d).leftBottom)))
  }

  /** `frustum_extents_at_depth`: width and height of one camera's rectangle. */
  function FrustumExtentsAtDepth(frustum: CameraFrustums.Frustum, cornersAt: CornersAtDepth, magnitude: Vec3 -> real,
                                 d: real): (real, real) {
    var c := cornersAt(frustum, d);
    (magnitude(c.leftTop.Sub(c.rightTop)), magnitude(c.leftTop.Sub(c.leftBottom)))
  }

  /** Every group is non-empty, each image has a depth sample, and each kept
      layer spans a plane of non-zero width and height. */
  predicate Ready(g: QuantizedPlane, corners: CornerFrustums, cornersAt: CornersAtDepth, magnitude: Vec3 -> real) {
    && |g.images| >= 1 && HasDepth(g.images)
    && (LayerDepth(g.images) <= MaxLayerDepth ==>
          && TotalExtent(corners, cornersAt, magnitude, LayerDepth(g.images)).0 != 0.0
          && TotalExtent(corners, cornersAt, magnitude, LayerDepth(g.images)).1 != 0.0)
  }

  predicate AllReady(groups: seq<QuantizedPlane>, corners: CornerFrustums, cornersAt: CornersAtDepth, magnitude: Vec3 -> real) {
    forall i :: 0 <= i < |groups| ==> Ready(groups[i], corners, cornersAt, magnitude)
  }

  /** The images of a layer, each with its ratios and centre. */
  function Placements(images: seq<PlaneImage>, baseline: real, totalWidth: real, totalHeight: real,
                      frustumWidth: real, frustumHeight: real): (r: seq<(nat, PlaneImageRatios, Vec2)>)
    requires totalWidth != 0.0 && totalHeight != 0.0
    ensures |r| == |images|
    ensures forall i :: 0 <= i < |r| ==>
      var (ratios, center) := PlaceImage(baseline, totalWidth, totalHeight, frustumWidth, frustumHeight, images[i].frustum);
      r[i] == (images[i].image, ratios, center)
  {
    seq(|images|, i requires 0 <= i < |images| =>
      var (ratios, center) := PlaceImage(baseline, totalWidth, totalHeight, frustumWidth, frustumHeight, images[i].frustum);
      (images[i].image, ratios, center))
  }

  /** The plane one kept layer produces. */
  function LayerPlane(g: QuantizedPlane, corners: CornerFrustums, baseline: real, cornersAt: CornersAtDepth,
                      magnitude: Vec3 -> real): Plane
    requires Ready(g, corners, cornersAt, magnitude) && LayerDepth(g.images) <= MaxLayerDepth
  {
    var d := LayerDepth(g.images);
    var (totalWidth, totalHeight) := TotalExtent(corners, cornersAt, magnitude, d);
    var (frustumWidth, frustumHeight) := FrustumExtentsAtDepth(corners.leftTop, cornersAt, magnitude, d);
    Plane(cornersAt(corners.leftTop, d).leftTop, cornersAt(corners.leftBottom, d).leftBottom,
          cornersAt(corners.rightTop, d).rightTop, cornersAt(corners.rightBottom, d).rightBottom,
          Placements(g.images, baseline, totalWidth, totalHeight, frustumWidth, frustumHeight))
  }

  /** One plane per layer not deeper than `MaxLayerDepth`, in group order. */
  function Planes(groups: seq<QuantizedPlane>, corners: CornerFrustums, baseline: real, cornersAt: CornersAtDepth,
                  magnitude: Vec3 -> real): seq<Plane>
    requires AllReady(groups, corners, cornersAt, magnitude)
  {
    if |groups| == 0 then []
    else
      var init := Planes(groups[..|groups| - 1], corners, baseline, cornersAt, magnitude);
      var g := groups[|groups| - 1];
      if LayerDepth(g.images) > MaxLayerDepth then init else init + [LayerPlane(g, corners, baseline, cornersAt, magnitude)]
  }

  /** There are never more planes than layers, and there are none exactly
      when every layer lies deeper than `MaxLayerDepth`. */
  lemma {:induction false} NoPlanesIffAllLayersTooDeep(groups: seq<QuantizedPlane>, corners: CornerFrustums, baseline: real,
                                                       cornersAt: CornersAtDepth, magnitude: Vec3 -> real)
    requires AllReady(groups, corners, cornersAt, magnitude)
    ensures |Planes(groups, corners, baseline, cornersAt, magnitude)| <= |groups|
    ensures |Planes(groups, corners, baseline, cornersAt, magnitude)| == 0 <==>
            forall i :: 0 <= i < |groups| ==> LayerDepth(groups[i].images) > MaxLayerDepth
  {
    if |groups| > 0 {
      var init := groups[..|groups| - 1];
      assert AllReady(init, corners, cornersAt, magnitude) by {
        forall i | 0 <= i < |init| ensures Ready(init[i], corners, cornersAt, magnitude) {
          assert init[i] == groups[i];
        }
      }
      NoPlanesIffAllLayersTooDeep(init, corners, baseline, cornersAt, magnitude);
      if forall i :: 0 <= i < |groups| ==> LayerDepth(groups[i].images) > MaxLayerDepth {
        forall i | 0 <= i < |init| ensures LayerDepth(init[i].images) > MaxLayerDepth {
          assert init[i] == groups[i];
        }
      } else if forall i :: 0 <= i < |init| ==> LayerDepth(init[i].images) > MaxLayerDepth {
        var k :| 0 <= k < |groups| && LayerDepth(groups[k].images) <= MaxLayerDepth;
      }
    }
  }

  /** The layer loop of `LightFieldData::new`. */
  method BuildPlanes(groups: seq<QuantizedPlane>, corners: CornerFrustums, baseline: real, cornersAt: CornersAtDepth,
                     magnitude: Vec3 -> real) returns (planes: seq<Plane>)
    requires AllReady(groups, corners, cornersAt, magnitude)
    ensures planes == Planes(groups, corners, baseline, cornersAt, magnitude)
  {
    planes := [];
    for i := 0 to |groups|
      invariant AllReady(groups[..i], corners, cornersAt, magnitude)
      invariant planes == Planes(groups[..i], corners, baseline, cornersAt, magnitude)
    {
      var quantizedPlane := groups[i];
      assert groups[..i + 1][..i] == groups[..i];
      assert groups[..i + 1][i] == quantizedPlane;
      assert Ready(quantizedPlane, corners, cornersAt, magnitude);
      var layerDepth := AverageDepth(quantizedPlane.images);
      if layerDepth > MaxLayerDepth {
        continue;
      }
      var leftTop := cornersAt(corners.leftTop, layerDepth).leftTop;
      var leftBottom := cornersAt(corners.leftBottom, layerDepth).leftBottom;
      var rightTop := cornersAt(corners.rightTop, layerDepth).rightTop;
      var rightBottom := cornersAt(corners.rightBottom, layerDepth).rightBottom;
      var totalWidth := magnitude(leftTop.Sub(rightTop));
      var totalHeight := magnitude(leftTop.Sub(leftBottom));
      var (frustumWidth, frustumHeight) := FrustumExtentsAtDepth(corners.leftTop, cornersAt, magnitude, layerDepth);
      var imageLocations := [];
      for j := 0 to |quantizedPlane.images|
        invariant imageLocations == Placements(quantizedPlane.images[..j], baseline, totalWidth, totalHeight,
                                               frustumWidth, frustumHeight)
      {
        var image := quantizedPlane.images[j];
        var (ratios, center) := PlaceImage(baseline, totalWidth, totalHeight, frustumWidth, frustumHeight, image.frustum);
        imageLocations := imageLocations + [(image.image, ratios, center)];
      }
      assert quantizedPlane.images[..|quantizedPlane.images|] == quantizedPlane.images;
      planes := planes + [Plane(leftTop, leftBottom, rightTop, rightBottom, imageLocations)];
    }
    assert groups[..|groups|] == groups;
  }

  // ---------------------------------------------------------------------
  // The light field's data

  datatype LightFieldData = LightFieldData(data: seq<Plane>, frustum: LightFieldFrustum, direction: Vec3,
                                           frustumEdges: seq<(Vec3, Vec3)>)

  /** The four corner cameras are present in the position map. */
  predicate CornersPresent(sorted: map<(nat, nat), CameraFrustums.Frustum>, frustumExtent: (nat, nat)) {
    && frustumExtent.0 >= 1 && frustumExtent.1 >= 1
    && (0, 0) in sorted && (0, frustumExtent.1 - 1) in sorted
    && (frustumExtent.0 - 1, 0) in sorted && (frustumExtent.0 - 1, frustumExtent.1 - 1) in sorted
  }

  function CornersOf(sorted: map<(nat, nat), CameraFrustums.Frustum>, frustumExtent: (nat, nat)): CornerFrustums
    requires CornersPresent(sorted, frustumExtent)
  {
    CornerFrustums(sorted[(0, 0)], sorted[(0, frustumExtent.1 - 1)],
                   sorted[(frustumExtent.0 - 1, 0)], sorted[(frustumExtent.0 - 1, frustumExtent.1 - 1)])
  }

  /** The frustums `create_frustums` builds always contain the four corner
      cameras, and each lookup finds the frustum of that very cell. */
  lemma {:induction false} CreatedGridHasCorners(frustums: seq<CameraFrustums.Frustum>, config: ConfigLoader.Config,
                              lens: CameraFrustums.Lens, center: Vec3, direction: Vec3, up: Vec3, right: Vec3,
                              normalize: Vec3 -> Vec3, w: nat, h: nat)
    requires w == config.extrinsics.horizontalCameraCount && h == config.extrinsics.verticalCameraCount
    requires w >= 1 && h >= 1 && |frustums| == w * h
    requires CameraFrustums.GridPrefix(frustums, config, lens, center, direction, up, right, normalize)
    ensures CornersPresent(CameraFrustums.PositionMap(frustums), (w, h))
    ensures var corners := CornersOf(CameraFrustums.PositionMap(frustums), (w, h));
      && corners.leftTop.position == (0, 0) && corners.leftBottom.position == (0, h - 1)
      && corners.rightTop.position == (w - 1, 0) && corners.rightBottom.position == (w - 1, h - 1)
  {
    var m := CameraFrustums.PositionMap(frustums);
    var x1, y1 := w - 1, h - 1;
    assert (0, 0) in m && m[(0, 0)].position == (0, 0) by {
      CornerLookup(frustums, config, lens, center, direction, up, right, normalize, w, h, 0, 0);
    }
    assert (0, y1) in m && m[(0, y1)].position == (0, y1) by {
      CornerLookup(frustums, config, lens, center, direction, up, right, normalize, w, h, 0, y1);
    }
    assert (x1, 0) in m && m[(x1, 0)].position == (x1, 0) by {
      CornerLookup(frustums, config, lens, center, direction, up, right, normalize, w, h, x1, 0);
    }
    assert (x1, y1) in m && m[(x1, y1)].position == (x1, y1) by {
      CornerLookup(frustums, config, lens, center, direction, up, right, normalize, w, h, x1, y1);
    }
  }

  lemma {:induction false} CornerLookup(frustums: seq<CameraFrustums.Frustum>, config: ConfigLoader.Config,
                     lens: CameraFrustums.Lens, center: Vec3, direction: Vec3, up: Vec3, right: Vec3,
                     normalize: Vec3 -> Vec3, w: nat, h: nat, x: nat, y: nat)
    requires w == config.extrinsics.horizontalCameraCount && h == config.extrinsics.verticalCameraCount
    requires w >= 1 && h >= 1 && |frustums| == w * h
    requires CameraFrustums.GridPrefix(frustums, config, lens, center, direction, up, right, normalize)
    requires x < w && y < h
    ensures (x, y) in CameraFrustums.PositionMap(frustums) && CameraFrustums.PositionMap(frustums)[(x, y)].position == (x, y)
  {
    CameraFrustums.GridLookup(frustums, config, lens, center, direction, up, right, normalize, x, y);
  }

  /** The four outer edges of the light field, from depth 0 to `maxDepth`. */
  function FrustumEdges(corners: CornerFrustums, cornersAt: CornersAtDepth, maxDepth: real): seq<(Vec3, Vec3)> {
    [(cornersAt(corners.leftTop, 0.0).leftTop, cornersAt(corners.leftTop, maxDepth).leftTop),
     (cornersAt(corners.leftBottom, 0.0).leftBottom, cornersAt(corners.leftBottom, maxDepth).leftBottom),
     (cornersAt(corners.rightTop, 0.0).rightTop, cornersAt(corners.rightTop, maxDepth).rightTop),
     (cornersAt(corners.rightBottom, 0.0).rightBottom, cornersAt(corners.rightBottom, maxDepth).rightBottom)]
  }

  /** `LightFieldData::new`. `mainDirection` stands for a camera frustum's
      `main_direction`. */
  method New(frustums: seq<CameraFrustums.Frustum>, imageData: seq<CameraImages>, frustumExtent: (nat, nat),
             baseline: real, maxDepth: real, cornersAt: CornersAtDepth, mainDirection: CameraFrustums.Frustum -> Vec3,
             magnitude: Vec3 -> real, normalize: Vec3 -> Vec3) returns (r: LightFieldData)
    requires CornersPresent(CameraFrustums.PositionMap(frustums), frustumExtent)
    requires AllReady(Group(Flatten(imageData)), CornersOf(CameraFrustums.PositionMap(frustums), frustumExtent),
                      cornersAt, magnitude)
    ensures var corners := CornersOf(CameraFrustums.PositionMap(frustums), frustumExtent);
      && r.data == Planes(Group(Flatten(imageData)), corners, baseline, cornersAt, magnitude)
      && r.frustum == NewLightFieldFrustum(corners.leftTop, corners.rightTop, corners.leftBottom, corners.rightBottom,
                                           normalize)
      && r.direction == mainDirection(corners.leftTop)
      && r.frustumEdges == FrustumEdges(corners, cornersAt, maxDepth)
  {
    var sortedFrustums := CameraFrustums.SortFrustums(frustums);
    var quantizedPlanes := GroupImages(imageData);
    ghost var expected := CornersOf(CameraFrustums.PositionMap(frustums), frustumExtent);
    var leftTopFrustum := sortedFrustums[(0, 0)];
    var leftBottomFrustum := sortedFrustums[(0, frustumExtent.1 - 1)];
    var rightTopFrustum := sortedFrustums[(frustumExtent.0 - 1, 0)];
    var rightBottomFrustum := sortedFrustums[(frustumExtent.0 - 1, frustumExtent.1 - 1)];
    var frustum := NewLightFieldFrustum(leftTopFrustum, rightTopFrustum, leftBottomFrustum, rightBottomFrustum, normalize);
    var corners := CornerFrustums(leftTopFrustum, leftBottomFrustum, rightTopFrustum, rightBottomFrustum);
    assert corners == expected;
    var planes := BuildPlanes(quantizedPlanes, corners, baseline, cornersAt, magnitude);
    r := LightFieldData(planes, frustum, mainDirection(leftTopFrustum), FrustumEdges(corners, cornersAt, maxDepth));
  }

  /** `is_empty`. */
  predicate IsEmpty(d: LightFieldData) {
    |d.data| == 0
  }

  /** `into_data`: the planes, as built. */
  function IntoData(d: LightFieldData): seq<Plane> {
    d.data
  }

  /** The light field `new` builds is empty exactly when every one of its
      layers lies deeper than `MaxLayerDepth`, and it never holds more
      planes than there are layers. */
  lemma EmptyIffAllLayersTooDeep(d: LightFieldData, groups: seq<QuantizedPlane>, corners: CornerFrustums, baseline: real,
                                 cornersAt: CornersAtDepth, magnitude: Vec3 -> real)
    requires AllReady(groups, corners, cornersAt, magnitude)
    requires d.data == Planes(groups, corners, baseline, cornersAt, magnitude)
    ensures |IntoData(d)| <= |groups|
    ensures IsEmpty(d) <==> forall i :: 0 <= i < |groups| ==> LayerDepth(groups[i].images) > MaxLayerDepth
  {
    NoPlanesIffAllLayersTooDeep(groups, corners, baseline, cornersAt, magnitude);
  }
}
