// The vertex list of the light-field renderer: one textured quad (two
// triangles) per layer image, placed at the image's depth in the frustum of
// the camera that took it, and the running image index that ties each quad
// to its texture.
module LightFieldRenderer {
  import opened Wrappers
  import opened Vectors
  import CameraFrustums
  import LightFieldData

  /** `u32`'s range; `as u32` keeps the index modulo this. */
  const U32Range: nat := 0x1_0000_0000

  datatype LightFieldVertex = LightFieldVertex(position: Vec3, imageIndex: nat, uv: Vec2)

  /** The corner a texture coordinate belongs to: u = 0 is the left edge,
      v = 1 the top edge. */
  function CornerAt(uv: Vec2, leftTop: Vec3, leftBottom: Vec3, rightTop: Vec3, rightBottom: Vec3): Vec3 {
    if uv.x == 0.0 then (if uv.y == 1.0 then leftTop else leftBottom)
    else (if uv.y == 1.0 then rightTop else rightBottom)
  }

  /** `create_quad`: the triangles (lt, lb, rb) and (rb, rt, lt). */
  function CreateQuad(leftTop: Vec3, leftBottom: Vec3, rightTop: Vec3, rightBottom: Vec3, imageIndex: nat)
    : (quad: seq<LightFieldVertex>)
    ensures |quad| == 6
    ensures quad[0] == quad[5] && quad[2] == quad[3]
    ensures forall k :: 0 <= k < 6 ==>
      && quad[k].imageIndex == imageIndex % U32Range
      && quad[k].uv in {Vec2(0.0, 1.0), Vec2(0.0, 0.0), Vec2(1.0, 0.0), Vec2(1.0, 1.0)}
      && quad[k].position == CornerAt(quad[k].uv, leftTop, leftBottom, rightTop, rightBottom)
    ensures quad[0].position == leftTop && quad[1].position == leftBottom
    ensures quad[2].position == rightBottom && quad[4].position == rightTop
  {
    var index := imageIndex % U32Range;
    [
      LightFieldVertex(leftTop, index, Vec2(0.0, 1.0)),
      LightFieldVertex(leftBottom, index, Vec2(0.0, 0.0)),
      LightFieldVertex(rightBottom, index, Vec2(1.0, 0.0)),
      LightFieldVertex(rightBottom, index, Vec2(1.0, 0.0)),
      LightFieldVertex(rightTop, index, Vec2(1.0, 1.0)),
      LightFieldVertex(leftTop, index, Vec2(0.0, 1.0))
    ]
  }

  /** One camera's images (an image and its depth each) and its grid
      coordinates. */
  datatype CameraImages = CameraImages(images: seq<(nat, real)>, x: nat, y: nat)

  /** Every image in processing order, with its depth and its camera's
      coordinates. */
  function Entries(imageData: seq<CameraImages>): (r: seq<(nat, real, (nat, nat))>) {
    if |imageData| == 0 then []
    else
      var c := imageData[|imageData| - 1];
      Entries(imageData[..|imageData| - 1]) + seq(|c.images|, k requires 0 <= k < |c.images| => (c.images[k].0, c.images[k].1, (c.x, c.y)))
  }

  /** Every camera's coordinates name a frustum. */
  predicate AllFound(imageData: seq<CameraImages>, sorted: map<(nat, nat), CameraFrustums.Frustum>) {
    forall i :: 0 <= i < |imageData| ==> (imageData[i].x, imageData[i].y) in sorted
  }

  /** Vertices 6k to 6k + 5 are the quad of entry k. */
  ghost predicate QuadAt(vertices: seq<LightFieldVertex>, k: nat, entry: (nat, real, (nat, nat)),
                         sorted: map<(nat, nat), CameraFrustums.Frustum>, cornersAt: LightFieldData.CornersAtDepth)
  {
    && entry.2 in sorted
    && 6 * k + 6 <= |vertices|
    && var c := cornersAt(sorted[entry.2], entry.1);
       vertices[6 * k .. 6 * k + 6] == CreateQuad(c.leftTop, c.leftBottom, c.rightTop, c.rightBottom, k)
  }

  /** The collection holds the entries' images in order and the vertices
      their quads. */
  ghost predicate Built(collection: seq<nat>, vertices: seq<LightFieldVertex>, entries: seq<(nat, real, (nat, nat))>,
                        sorted: map<(nat, nat), CameraFrustums.Frustum>, cornersAt: LightFieldData.CornersAtDepth)
  {
    && |collection| == |entries| && |vertices| == 6 * |entries|
    && forall k :: 0 <= k < |entries| ==> collection[k] == entries[k].0 && QuadAt(vertices, k, entries[k], sorted, cornersAt)
  }

  lemma {:induction false} BuiltStep(collection: seq<nat>, vertices: seq<LightFieldVertex>, entries: seq<(nat, real, (nat, nat))>,
                                     sorted: map<(nat, nat), CameraFrustums.Frustum>, cornersAt: LightFieldData.CornersAtDepth,
                                     entry: (nat, real, (nat, nat)))
    requires Built(collection, vertices, entries, sorted, cornersAt) && entry.2 in sorted
    ensures var c := cornersAt(sorted[entry.2], entry.1);
      Built(collection + [entry.0],
            vertices + CreateQuad(c.leftTop, c.leftBottom, c.rightTop, c.rightBottom, |collection|),
            entries + [entry], sorted, cornersAt)
  {
    var c := cornersAt(sorted[entry.2], entry.1);
    var quad := CreateQuad(c.leftTop, c.leftBottom, c.rightTop, c.rightBottom, |collection|);
    var vs := vertices + quad;
    var es := entries + [entry];
    forall k | 0 <= k < |es|
      ensures QuadAt(vs, k, es[k], sorted, cornersAt)
    {
      if k < |entries| {
        assert QuadAt(vertices, k, entries[k], sorted, cornersAt);
        assert vs[6 * k .. 6 * k + 6] == vertices[6 * k .. 6 * k + 6];
      } else {
        assert vs[6 * k .. 6 * k + 6] == quad;
      }
    }
  }

  lemma EntriesStep(imageData: seq<CameraImages>, i: nat, j: nat)
    requires i < |imageData| && j < |imageData[i].images|
    ensures var c := imageData[i];
      Entries(imageData[..i]) + Entries([CameraImages(c.images[..j + 1], c.x, c.y)])
        == Entries(imageData[..i]) + Entries([CameraImages(c.images[..j], c.x, c.y)])
           + [(c.images[j].0, c.images[j].1, (c.x, c.y))]
  {
    var c := imageData[i];
    assert [CameraImages(c.images[..j + 1], c.x, c.y)][..0] == [];
    assert [CameraImages(c.images[..j], c.x, c.y)][..0] == [];
  }

  lemma EntriesCamera(imageData: seq<CameraImages>, i: nat)
    requires i < |imageData|
    ensures var c := imageData[i];
      Entries(imageData[..i + 1]) == Entries(imageData[..i]) + Entries([CameraImages(c.images[..|c.images|], c.x, c.y)])
  {
    var c := imageData[i];
    assert imageData[..i + 1][..i] == imageData[..i];
    assert c.images[..|c.images|] == c.images;
    assert [CameraImages(c.images, c.x, c.y)][..0] == [];
  }

  /** The bookkeeping of `LightFieldRenderer::new`: the frustums sorted by
      grid position (the last of equal positions wins), then per camera
      image one texture slot and one quad. A camera without a frustum is an
      error. The result holds the image collection and the vertices. */
  method New(frustums: seq<CameraFrustums.Frustum>, imageData: seq<CameraImages>, cornersAt: LightFieldData.CornersAtDepth)
    returns (r: Result<(seq<nat>, seq<LightFieldVertex>), string>)
    ensures r.Err? <==> !AllFound(imageData, CameraFrustums.PositionMap(frustums))
    ensures r.Ok? ==> Built(r.value.0, r.value.1, Entries(imageData), CameraFrustums.PositionMap(frustums), cornersAt)
  {
    var sortedFrustums := CameraFrustums.SortFrustums(frustums);
    var imageCollection: seq<nat> := [];
    var vertices: seq<LightFieldVertex> := [];
    for i := 0 to |imageData|
      invariant AllFound(imageData[..i], sortedFrustums)
      invariant Built(imageCollection, vertices, Entries(imageData[..i]), sortedFrustums, cornersAt)
    {
      var camera := imageData[i];
      if (camera.x, camera.y) !in sortedFrustums {
        return Err("no frustum found");
      }
      var frustum := sortedFrustums[(camera.x, camera.y)];
      ghost var done := Entries(imageData[..i]);
      assert [CameraImages(camera.images[..0], camera.x, camera.y)][..0] == [];
      assert Entries([CameraImages(camera.images[..0], camera.x, camera.y)]) == [];
      for j := 0 to |camera.images|
        invariant Built(imageCollection, vertices, done + Entries([CameraImages(camera.images[..j], camera.x, camera.y)]),
                        sortedFrustums, cornersAt)
      {
        var (image, depth) := camera.images[j];
        var currentIndex := |imageCollection|;
        EntriesStep(imageData, i, j);
        BuiltStep(imageCollection, vertices, done + Entries([CameraImages(camera.images[..j], camera.x, camera.y)]),
                  sortedFrustums, cornersAt, (image, depth, (camera.x, camera.y)));
        imageCollection := imageCollection + [image];
        var c := cornersAt(frustum, depth);
        vertices := vertices + CreateQuad(c.leftTop, c.leftBottom, c.rightTop, c.rightBottom, currentIndex);
      }
      EntriesCamera(imageData, i);
      assert imageData[..i + 1][..i] == imageData[..i];
    }
    assert imageData[..|imageData|] == imageData;
    r := Ok((imageCollection, vertices));
  }
}
