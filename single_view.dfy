// The single-view debug layout: every camera image drawn as a flat textured
// rectangle of fixed width, the camera grid laid out as a centred field of
// such rectangles with a fixed gap, and the layers of one camera stacked
// along the viewing direction.
module SingleView {
  import opened Vectors

  /** The drawn width of every image, in metres. */
  const TextureWidthM: real := 0.2
  /** The gap between neighbouring images, in metres. */
  const InterImageGapM: real := 0.1

  /** `ExampleVertex::pos_vec`: a position and a texture coordinate. */
  datatype ExampleVertex = ExampleVertex(position: Vec3, uv: Vec2)

  /** The field all views of a grid share: the drawn image height, the top
      left corner of the whole field and its axes. */
  datatype Layout = Layout(height: real, fieldWidth: real, fieldHeight: real, topLeftCorner: Vec3, right: Vec3, up: Vec3)

  /** The layout arithmetic at the start of `SingleView::new`; the image
      height must be non-zero and both camera counts at least 1, since the
      source divides by the one and subtracts 1 from the others. */
  function NewLayout(imageWidth: nat, imageHeight: nat, w: nat, h: nat, planeCenter: Vec3, right: Vec3, up: Vec3)
    : (layout: Layout)
    requires imageHeight > 0 && w >= 1 && h >= 1
    ensures layout.height * imageHeight as real == TextureWidthM * imageWidth as real
    ensures layout.fieldWidth == TextureWidthM * w as real + InterImageGapM * (w - 1) as real
    ensures layout.fieldHeight == layout.height * h as real + InterImageGapM * (h - 1) as real
    ensures layout.right == right && layout.up == up
  {
    var height := (TextureWidthM * imageWidth as real) / imageHeight as real;
    var completeFieldWidth := TextureWidthM * w as real + InterImageGapM * (w - 1) as real;
    var completeFieldHeight := height * h as real + InterImageGapM * (h - 1) as real;
    var topLeftCorner := planeCenter.Sub(right.Scale(completeFieldWidth / 2.0)).Add(up.Scale(completeFieldHeight / 2.0));
    Layout(height, completeFieldWidth, completeFieldHeight, topLeftCorner, right, up)
  }

  /** The field is centred on the plane centre: going half the field to the
      right and half down from its top left corner reaches the centre. */
  lemma FieldCentred(imageWidth: nat, imageHeight: nat, w: nat, h: nat, planeCenter: Vec3, right: Vec3, up: Vec3)
    requires imageHeight > 0 && w >= 1 && h >= 1
    ensures var l := NewLayout(imageWidth, imageHeight, w, h, planeCenter, right, up);
      l.topLeftCorner.Add(right.Scale(l.fieldWidth / 2.0)).Sub(up.Scale(l.fieldHeight / 2.0)) == planeCenter
  {
  }

  /** One view's corners. */
  datatype Rect = Rect(topLeft: Vec3, bottomLeft: Vec3, topRight: Vec3, bottomRight: Vec3)

  /** A point of the field: `across` metres to the right of and `down`
      metres below its top left corner. */
  function At(l: Layout, across: real, down: real): Vec3 {
    l.topLeftCorner.Add(l.right.Scale(across)).Sub(l.up.Scale(down))
  }

  /** The corners of view (x, y) in `SingleView::new`. */
  function ViewRect(l: Layout, x: nat, y: nat): Rect {
    Rect(At(l, Across(x), Down(l, y)), At(l, Across(x), Down(l, y) + l.height),
         At(l, Across(x) + TextureWidthM, Down(l, y)), At(l, Across(x) + TextureWidthM, Down(l, y) + l.height))
  }

  /** How far right of the field's left edge column x starts. */
  function Across(x: nat): real {
    (TextureWidthM + InterImageGapM) * x as real
  }

  /** How far below the field's top edge row y starts. */
  function Down(l: Layout, y: nat): real {
    (l.height + InterImageGapM) * y as real
  }

  /** Each view is a TextureWidthM-wide, height-tall rectangle spanned by
      `right` and `up`. */
  lemma ViewShape(l: Layout, x: nat, y: nat)
    ensures var r := ViewRect(l, x, y);
      && r.topRight.Sub(r.topLeft) == l.right.Scale(TextureWidthM)
      && r.topLeft.Sub(r.bottomLeft) == l.up.Scale(l.height)
      && r.bottomRight == r.topRight.Sub(l.up.Scale(l.height))
  {
  }

  /** View (x, y) is view (0, 0) moved by x image-plus-gap widths to the
      right and y image-plus-gap heights down. */
  lemma ViewOffset(l: Layout, x: nat, y: nat)
    ensures ViewRect(l, x, y).topLeft.Sub(ViewRect(l, 0, 0).topLeft) == l.right.Scale(Across(x)).Sub(l.up.Scale(Down(l, y)))
  {
    assert Across(0) == 0.0 && Down(l, 0) == 0.0;
    AtOffset(l, Across(x), Down(l, y));
  }

  /** A point of the field, seen from the field's top left corner. */
  lemma AtOffset(l: Layout, across: real, down: real)
    ensures At(l, across, down).Sub(At(l, 0.0, 0.0)) == l.right.Scale(across).Sub(l.up.Scale(down))
  {
  }

  /** The last column ends at the field's right edge and the last row at
      its bottom edge: the views fill the field exactly. */
  lemma LastViewAtFieldEdge(imageWidth: nat, imageHeight: nat, w: nat, h: nat, planeCenter: Vec3, right: Vec3, up: Vec3)
    requires imageHeight > 0 && w >= 1 && h >= 1
    ensures var l := NewLayout(imageWidth, imageHeight, w, h, planeCenter, right, up);
      ViewRect(l, w - 1, h - 1).bottomRight == At(l, l.fieldWidth, l.fieldHeight)
  {
    var l := NewLayout(imageWidth, imageHeight, w, h, planeCenter, right, up);
    assert Across(w - 1) + TextureWidthM == l.fieldWidth;
    assert Down(l, h - 1) + l.height == l.fieldHeight;
  }

  /** The six vertices of a view: triangles (tl, bl, br) and (br, tr, tl),
      with texture v growing downwards. */
  function ViewVertices(r: Rect): (vertices: seq<ExampleVertex>)
    ensures |vertices| == 6 && vertices[0] == vertices[5] && vertices[2] == vertices[3]
    ensures forall k :: 0 <= k < 6 ==>
      vertices[k].position == (if vertices[k].uv.x == 0.0 then (if vertices[k].uv.y == 0.0 then r.topLeft else r.bottomLeft)
                               else (if vertices[k].uv.y == 0.0 then r.topRight else r.bottomRight))
    ensures vertices[0].position == r.topLeft && vertices[1].position == r.bottomLeft
    ensures vertices[2].position == r.bottomRight && vertices[4].position == r.topRight
  {
    [
      ExampleVertex(r.topLeft, Vec2(0.0, 0.0)),
      ExampleVertex(r.bottomLeft, Vec2(0.0, 1.0)),
      ExampleVertex(r.bottomRight, Vec2(1.0, 1.0)),
      ExampleVertex(r.bottomRight, Vec2(1.0, 1.0)),
      ExampleVertex(r.topRight, Vec2(1.0, 0.0)),
      ExampleVertex(r.topLeft, Vec2(0.0, 0.0))
    ]
  }

  /** `SingleView::new`: the vertices of the view of camera (x, y). */
  function NewSingleView(imageWidth: nat, imageHeight: nat, x: nat, y: nat, w: nat, h: nat,
                         planeCenter: Vec3, right: Vec3, up: Vec3): seq<ExampleVertex>
    requires imageHeight > 0 && w >= 1 && h >= 1
  {
    ViewVertices(ViewRect(NewLayout(imageWidth, imageHeight, w, h, planeCenter, right, up), x, y))
  }

  /** The plane centre of a layer: moved along `direction` by whole image
      widths, layer `start` staying at the centre. */
  function LayerCenter(planeCenter: Vec3, direction: Vec3, layer: nat, start: nat): Vec3 {
    planeCenter.Add(direction.Scale(layer as real * TextureWidthM - start as real * TextureWidthM))
  }

  /** Layer `start` sits at the plane centre, and each further layer one
      image width further along `direction`. */
  lemma LayerCenterSteps(planeCenter: Vec3, direction: Vec3, layer: nat, start: nat)
    ensures LayerCenter(planeCenter, direction, start, start) == planeCenter
    ensures LayerCenter(planeCenter, direction, layer + 1, start)
      == LayerCenter(planeCenter, direction, layer, start).Add(direction.Scale(TextureWidthM))
  {
    var a := layer as real * TextureWidthM - start as real * TextureWidthM;
    assert (layer + 1) as real * TextureWidthM - start as real * TextureWidthM == a + TextureWidthM;
  }

  /** One image of a layer: its size in pixels and its layer index. */
  datatype LayerImage = LayerImage(width: nat, height: nat, layer: nat)

  /** `SingleViewLayer::new`: one view per image, each drawn around the
      plane centre moved along `direction` by its layer, relative to the
      layer at half the image count (rounded down). */
  method NewSingleViewLayer(images: seq<LayerImage>, x: nat, y: nat, w: nat, h: nat,
                            planeCenter: Vec3, direction: Vec3, right: Vec3, up: Vec3)
    returns (views: seq<seq<ExampleVertex>>)
    requires |images| > 0 ==> w >= 1 && h >= 1
    requires forall k :: 0 <= k < |images| ==> images[k].height > 0
    ensures |views| == |images|
    ensures forall k :: 0 <= k < |images| ==>
      views[k] == NewSingleView(images[k].width, images[k].height, x, y, w, h,
                                LayerCenter(planeCenter, direction, images[k].layer, |images| / 2), right, up)
  {
    var imageCount := |images|;
    var start := imageCount / 2;
    views := [];
    for k := 0 to |images|
      invariant |views| == k
      invariant forall j :: 0 <= j < k ==>
        views[j] == NewSingleView(images[j].width, images[j].height, x, y, w, h,
                                  LayerCenter(planeCenter, direction, images[j].layer, start), right, up)
    {
      var image := images[k];
      var directionOffset := direction.Scale(image.layer as real * TextureWidthM - start as real * TextureWidthM);
      var singleViewPlaneCenter := planeCenter.Add(directionOffset);
      views := views + [NewSingleView(image.width, image.height, x, y, w, h, singleViewPlaneCenter, right, up)];
    }
  }
}
