// The camera grid of a light field: one viewing frustum per camera, laid
// out row by row around the centre camera, each described by the four
// corner rays from its aperture through its sensor.
module CameraFrustums {
  import opened Vectors
  import ConfigLoader
  import opened GridArithmetic

  /** A ray: a point and a (normalised) direction. */
  datatype Line = Line(center: Vec3, direction: Vec3)

  /** `Line::create`: the ray from `helper` through `center`, anchored at
      `center`; `normalize` stands for the vector normalisation. */
  function CreateLine(center: Vec3, helper: Vec3, normalize: Vec3 -> Vec3): (l: Line)
    ensures l.center == center
  {
    Line(center, normalize(center.Sub(helper)))
  }

  datatype Corners = Corners(leftTop: Vec3, leftBottom: Vec3, rightTop: Vec3, rightBottom: Vec3)

  /** One camera's frustum and its (x, y) place in the grid. */
  datatype Frustum = Frustum(position: (nat, nat), leftTop: Line, leftBottom: Line, rightTop: Line, rightBottom: Line)

  /** Focal length, sensor size and aperture as the intrinsic section's
      accessors report them. */
  datatype Lens = Lens(focalLength: real, sensorSize: real, fstop: real)

  /** `calculate_corners`: the square of half-side `distance` around `center`
      spanned by `right` and `up`. */
  function CalculateCorners(center: Vec3, up: Vec3, right: Vec3, distance: real): Corners {
    var horizontal := right.Scale(distance);
    var vertical := up.Scale(distance);
    Corners(center.Sub(horizontal).Add(vertical), center.Sub(horizontal).Sub(vertical),
            center.Add(horizontal).Add(vertical), center.Add(horizontal).Sub(vertical))
  }

  /** Opposite corners are symmetric about the centre, and the sides are
      `2 * distance` along `right` and `up`. */
  lemma CornersSymmetric(center: Vec3, up: Vec3, right: Vec3, distance: real)
    ensures var r := CalculateCorners(center, up, right, distance);
      && r.leftTop.Add(r.rightBottom) == center.Scale(2.0)
      && r.leftBottom.Add(r.rightTop) == center.Scale(2.0)
      && r.rightTop.Sub(r.leftTop) == right.Scale(2.0 * distance)
      && r.rightBottom.Sub(r.leftBottom) == right.Scale(2.0 * distance)
      && r.leftTop.Sub(r.leftBottom) == up.Scale(2.0 * distance)
      && r.rightTop.Sub(r.rightBottom) == up.Scale(2.0 * distance)
  {
  }

  /** `LightFieldFrustum::new`: the sensor sits `focalLength` behind the
      aperture; each corner ray runs from a sensor corner through the
      matching aperture corner. */
  function New(x: nat, y: nat, center: Vec3, direction: Vec3, up: Vec3, right: Vec3, lens: Lens,
               normalize: Vec3 -> Vec3): (f: Frustum)
    ensures f.position == (x, y)
  {
    var sensorCenter := center.Sub(direction.Scale(lens.focalLength));
    var sensor := CalculateCorners(sensorCenter, up, right, lens.sensorSize);
    var aperture := CalculateCorners(center, up, right, lens.fstop);
    Frustum((x, y),
            CreateLine(aperture.leftTop, sensor.leftTop, normalize),
            CreateLine(aperture.leftBottom, sensor.leftBottom, normalize),
            CreateLine(aperture.rightTop, sensor.rightTop, normalize),
            CreateLine(aperture.rightBottom, sensor.rightBottom, normalize))
  }

  /** The corner rays start on the aperture square around the camera centre,
      and the unnormalised left-top ray is the viewing direction scaled by
      the focal length plus the difference of the two squares' corners. */
  lemma NewRaysFromApertureSquare(x: nat, y: nat, center: Vec3, direction: Vec3, up: Vec3, right: Vec3, lens: Lens,
                                  normalize: Vec3 -> Vec3)
    ensures var f := New(x, y, center, direction, up, right, lens, normalize);
      && f.leftTop.center.Add(f.rightBottom.center) == center.Scale(2.0)
      && f.leftBottom.center.Add(f.rightTop.center) == center.Scale(2.0)
      && f.rightTop.center.Sub(f.leftTop.center) == right.Scale(2.0 * lens.fstop)
      && f.leftTop.direction == normalize(direction.Scale(lens.focalLength)
           .Add(up.Scale(lens.fstop - lens.sensorSize)).Sub(right.Scale(lens.fstop - lens.sensorSize)))
  {
    CornersSymmetric(center, up, right, lens.fstop);
    var sensorCenter := center.Sub(direction.Scale(lens.focalLength));
    var sensor := CalculateCorners(sensorCenter, up, right, lens.sensorSize);
    var aperture := CalculateCorners(center, up, right, lens.fstop);
    assert aperture.leftTop.Sub(sensor.leftTop) == direction.Scale(lens.focalLength)
           .Add(up.Scale(lens.fstop - lens.sensorSize)).Sub(right.Scale(lens.fstop - lens.sensorSize));
  }

  /** `position()`. */
  function Position(f: Frustum): (nat, nat) {
    f.position
  }

  // ---------------------------------------------------------------------
  // The grid

  /** Centre of the top-left camera; the offsets use integer halves. */
  function TotalTopLeft(center: Vec3, up: Vec3, right: Vec3, baseline: real, width: nat, height: nat): Vec3
    requires width >= 1 && height >= 1
  {
    center.Sub(right.Scale(((width - 1) / 2) as real * baseline)).Add(up.Scale(((height - 1) / 2) as real * baseline))
  }

  /** Centre of camera (x, y): x steps along `right`, y steps down `up`. */
  function CellCenter(topLeft: Vec3, up: Vec3, right: Vec3, baseline: real, x: nat, y: nat): Vec3 {
    topLeft.Add(right.Scale(x as real * baseline)).Sub(up.Scale(y as real * baseline))
  }

  /** The camera at the integer middle of the grid is the configured centre. */
  lemma MiddleCameraAtCenter(center: Vec3, up: Vec3, right: Vec3, baseline: real, width: nat, height: nat)
    requires width >= 1 && height >= 1
    ensures CellCenter(TotalTopLeft(center, up, right, baseline, width, height), up, right, baseline,
                       (width - 1) / 2, (height - 1) / 2) == center
  {
  }

  /** Neighbouring cameras are one baseline apart. */
  lemma NeighboursOneBaselineApart(topLeft: Vec3, up: Vec3, right: Vec3, baseline: real, x: nat, y: nat)
    ensures CellCenter(topLeft, up, right, baseline, x + 1, y).Sub(CellCenter(topLeft, up, right, baseline, x, y))
            == right.Scale(baseline)
    ensures CellCenter(topLeft, up, right, baseline, x, y).Sub(CellCenter(topLeft, up, right, baseline, x, y + 1))
            == up.Scale(baseline)
  {
  }

  /** The frustum `create_frustums` builds for camera (x, y). */
  function FrustumAt(config: ConfigLoader.Config, lens: Lens, center: Vec3, direction: Vec3, up: Vec3, right: Vec3,
                     normalize: Vec3 -> Vec3, x: nat, y: nat): Frustum
    requires config.extrinsics.horizontalCameraCount >= 1 && config.extrinsics.verticalCameraCount >= 1
  {
    var baseline := config.extrinsics.Baseline();
    var topLeft := TotalTopLeft(center, up, right, baseline,
                                config.extrinsics.horizontalCameraCount, config.extrinsics.verticalCameraCount);
    New(x, y, CellCenter(topLeft, up, right, baseline, x, y), direction, up, right, lens, normalize)
  }

  /** The frustums of the first `|fs|` cameras in row-major order. */
  ghost predicate GridPrefix(fs: seq<Frustum>, config: ConfigLoader.Config, lens: Lens, center: Vec3, direction: Vec3,
                             up: Vec3, right: Vec3, normalize: Vec3 -> Vec3)
    requires config.extrinsics.horizontalCameraCount >= 1 && config.extrinsics.verticalCameraCount >= 1
  {
    forall k :: 0 <= k < |fs| ==>
      fs[k] == FrustumAt(config, lens, center, direction, up, right, normalize,
                         k / config.extrinsics.verticalCameraCount, k % config.extrinsics.verticalCameraCount)
  }

  lemma AppendCell(fs: seq<Frustum>, config: ConfigLoader.Config, lens: Lens, center: Vec3, direction: Vec3,
                   up: Vec3, right: Vec3, normalize: Vec3 -> Vec3, x: nat, y: nat)
    requires config.extrinsics.horizontalCameraCount >= 1 && config.extrinsics.verticalCameraCount >= 1
    requires y < config.extrinsics.verticalCameraCount
    requires |fs| == x * config.extrinsics.verticalCameraCount + y
    requires GridPrefix(fs, config, lens, center, direction, up, right, normalize)
    ensures GridPrefix(fs + [FrustumAt(config, lens, center, direction, up, right, normalize, x, y)],
                       config, lens, center, direction, up, right, normalize)
  {
    CellNumber(x, y, config.extrinsics.verticalCameraCount);
  }

  /** `create_frustums`: x outer, y inner. The k-th frustum is camera
      (k / height, k % height). */
  method CreateFrustums(center: Vec3, direction: Vec3, up: Vec3, right: Vec3, config: ConfigLoader.Config,
                        lens: Lens, normalize: Vec3 -> Vec3) returns (frustums: seq<Frustum>)
    requires config.extrinsics.horizontalCameraCount >= 1 && config.extrinsics.verticalCameraCount >= 1
    ensures |frustums| == config.extrinsics.horizontalCameraCount * config.extrinsics.verticalCameraCount
    ensures GridPrefix(frustums, config, lens, center, direction, up, right, normalize)
  {
    frustums := [];
    var baseline := config.extrinsics.Baseline();
    var width: nat := config.extrinsics.horizontalCameraCount;
    var height: nat := config.extrinsics.verticalCameraCount;
    var totalTopLeft := TotalTopLeft(center, up, right, baseline, width, height);
    for x := 0 to width
      invariant |frustums| == x * height
      invariant GridPrefix(frustums, config, lens, center, direction, up, right, normalize)
    {
      for y := 0 to height
        invariant |frustums| == x * height + y
        invariant GridPrefix(frustums, config, lens, center, direction, up, right, normalize)
      {
        var currentCenter := CellCenter(totalTopLeft, up, right, baseline, x, y);
        AppendCell(frustums, config, lens, center, direction, up, right, normalize, x, y);
        frustums := frustums + [New(x, y, currentCenter, direction, up, right, lens, normalize)];
      }
      assert (x + 1) * height == x * height + height;
    }
  }

  /** Entry k of `ps` is cell (k / h, k % h): the row-major numbering of a grid h tall. */
  ghost predicate RowMajor(ps: seq<(nat, nat)>, h: nat)
    requires h >= 1
  {
    forall k :: 0 <= k < |ps| ==> ps[k] == (k / h, k % h)
  }

  /** Cell (x, y) sits at number x * h + y of `ps`. */
  ghost predicate CellAt(ps: seq<(nat, nat)>, h: nat, x: nat, y: nat)
  {
    x * h + y < |ps| && ps[x * h + y] == (x, y)
  }

  lemma RowMajorCell(ps: seq<(nat, nat)>, w: nat, h: nat, x: nat, y: nat)
    requires h >= 1 && |ps| == w * h && RowMajor(ps, h)
    requires x < w && y < h
    ensures CellAt(ps, h, x, y)
  {
    var k := x * h + y;
    CellInGrid(x, y, w, h);
    CellNumber(x, y, h);
    assert ps[k] == (k / h, k % h);
  }

  /** Row-major numbering reaches every cell of the grid. */
  lemma RowMajorCovers(ps: seq<(nat, nat)>, w: nat, h: nat)
    requires h >= 1 && |ps| == w * h && RowMajor(ps, h)
    ensures forall x: nat, y: nat :: x < w && y < h ==> CellAt(ps, h, x, y)
  {
    forall x: nat, y: nat | x < w && y < h
      ensures CellAt(ps, h, x, y)
    {
      RowMajorCell(ps, w, h, x, y);
    }
  }

  /** Row-major numbering never repeats a cell. */
  lemma RowMajorDistinct(ps: seq<(nat, nat)>, h: nat)
    requires h >= 1 && RowMajor(ps, h)
    ensures forall i, j :: 0 <= i < j < |ps| ==> ps[i] != ps[j]
  {
    forall i, j | 0 <= i < j < |ps|
      ensures ps[i] != ps[j]
    {
      assert ps[i] == (i / h, i % h) && ps[j] == (j / h, j % h);
      DivModUnique(i, h, i / h, i % h);
      DivModUnique(j, h, j / h, j % h);
    }
  }

  function Positions(frustums: seq<Frustum>): (ps: seq<(nat, nat)>)
    ensures |ps| == |frustums|
    ensures forall k :: 0 <= k < |ps| ==> ps[k] == Position(frustums[k])
  {
    seq(|frustums|, k requires 0 <= k < |frustums| => Position(frustums[k]))
  }

  /** Every camera of the grid occurs exactly once, at number x * height + y. */
  lemma GridPositionsAreABijection(frustums: seq<Frustum>, config: ConfigLoader.Config, lens: Lens, center: Vec3,
                                   direction: Vec3, up: Vec3, right: Vec3, normalize: Vec3 -> Vec3)
    requires config.extrinsics.horizontalCameraCount >= 1 && config.extrinsics.verticalCameraCount >= 1
    requires |frustums| == config.extrinsics.horizontalCameraCount * config.extrinsics.verticalCameraCount
    requires GridPrefix(frustums, config, lens, center, direction, up, right, normalize)
    ensures forall x: nat, y: nat :: x < config.extrinsics.horizontalCameraCount && y < config.extrinsics.verticalCameraCount ==>
      CellAt(Positions(frustums), config.extrinsics.verticalCameraCount, x, y)
    ensures forall i, j :: 0 <= i < j < |frustums| ==> Positions(frustums)[i] != Positions(frustums)[j]
  {
    var h: nat := config.extrinsics.verticalCameraCount;
    var ps := Positions(frustums);
    forall k | 0 <= k < |ps|
      ensures ps[k] == (k / h, k % h)
    {
      assert frustums[k] == FrustumAt(config, lens, center, direction, up, right, normalize, k / h, k % h);
    }
    assert RowMajor(ps, h);
    RowMajorCovers(ps, config.extrinsics.horizontalCameraCount, h);
    RowMajorDistinct(ps, h);
  }

  // ---------------------------------------------------------------------
  // Looking frustums up by position

  /** The map `sorted_frustums` ends up as: each frustum stored under its
      position, a later frustum replacing an earlier one at the same place. */
  function PositionMap(fs: seq<Frustum>): map<(nat, nat), Frustum>
  {
    if |fs| == 0 then map[] else PositionMap(fs[..|fs| - 1])[fs[|fs| - 1].position := fs[|fs| - 1]]
  }

  /** A position is a key iff some frustum sits there, and the frustum found
      is the last one at that position. */
  lemma {:induction false} PositionMapLastWins(fs: seq<Frustum>, p: (nat, nat))
    ensures p in PositionMap(fs) <==> exists k :: 0 <= k < |fs| && fs[k].position == p
    ensures p in PositionMap(fs) ==>
      exists k ::
        && 0 <= k < |fs| && fs[k].position == p && PositionMap(fs)[p] == fs[k]
        && forall j :: k < j < |fs| ==> fs[j].position != p
  {
    if |fs| > 0 {
      var n := |fs| - 1;
      var init := fs[..n];
      PositionMapLastWins(init, p);
      if fs[n].position == p {
        assert PositionMap(fs)[p] == fs[n];
      } else if p in PositionMap(init) {
        var k :| 0 <= k < n && init[k].position == p && PositionMap(init)[p] == init[k]
                 && forall j :: k < j < n ==> init[j].position != p;
        assert fs[k] == init[k];
      } else {
        forall k | 0 <= k < |fs|
          ensures fs[k].position != p
        {
          if k < n {
            assert init[k] == fs[k];
          }
        }
      }
    }
  }

  /** The insertion loop over all frustums. */
  method SortFrustums(fs: seq<Frustum>) returns (m: map<(nat, nat), Frustum>)
    ensures m == PositionMap(fs)
  {
    m := map[];
    for i := 0 to |fs|
      invariant m == PositionMap(fs[..i])
    {
      assert fs[..i + 1][..i] == fs[..i];
      m := m[fs[i].position := fs[i]];
    }
    assert fs[..|fs|] == fs;
  }

  /** After `create_frustums`, every grid cell can be looked up, and the
      lookup yields the frustum built for that cell. */
  lemma GridLookup(frustums: seq<Frustum>, config: ConfigLoader.Config, lens: Lens, center: Vec3,
                   direction: Vec3, up: Vec3, right: Vec3, normalize: Vec3 -> Vec3, x: nat, y: nat)
    requires config.extrinsics.horizontalCameraCount >= 1 && config.extrinsics.verticalCameraCount >= 1
    requires |frustums| == config.extrinsics.horizontalCameraCount * config.extrinsics.verticalCameraCount
    requires GridPrefix(frustums, config, lens, center, direction, up, right, normalize)
    requires x < config.extrinsics.horizontalCameraCount && y < config.extrinsics.verticalCameraCount
    ensures (x, y) in PositionMap(frustums)
    ensures PositionMap(frustums)[(x, y)] == FrustumAt(config, lens, center, direction, up, right, normalize, x, y)
  {
    var h: nat := config.extrinsics.verticalCameraCount;
    var c := x * h + y;
    CellInGrid(x, y, config.extrinsics.horizontalCameraCount, h);
    CellNumber(x, y, h);
    assert frustums[c] == FrustumAt(config, lens, center, direction, up, right, normalize, x, y);
    assert frustums[c].position == (x, y);
    PositionMapLastWins(frustums, (x, y));
    assert (x, y) in PositionMap(frustums);
    var k :| 0 <= k < |frustums| && frustums[k].position == (x, y) && PositionMap(frustums)[(x, y)] == frustums[k]
             && forall j :: k < j < |frustums| ==> frustums[j].position != (x, y);
    assert frustums[k] == FrustumAt(config, lens, center, direction, up, right, normalize, k / h, k % h);
    assert k / h == x && k % h == y;
    DivModIdentity(k, h);
  }
}
