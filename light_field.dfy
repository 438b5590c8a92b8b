// Loading one light field from its depth maps and camera images: the depth
// range over all depth maps, the slice thickness, and the per-camera layer
// images cut out of the camera image by the alpha masks.
module LightField {
  import opened Wrappers
  import AlphaMaps
  import CameraFrustums

  // ---------------------------------------------------------------------
  // Depth range

  /** `f32::MAX`; the fold starts from it and from `f32::MIN`, its negation. */
  const F32Max: real := 340282346638528859811704183484516925440.0

  /** Depth samples at or beyond this value are ignored. */
  const DepthCutoff: real := 10000.0

  /** The running minimum of the accepted samples, from `f32::MAX`. */
  function DepthMin(samples: seq<real>): real {
    if |samples| == 0 then F32Max
    else
      var m := DepthMin(samples[..|samples| - 1]);
      var d := samples[|samples| - 1];
      if d < DepthCutoff && d < m then d else m
  }

  /** The running maximum of the accepted samples, from `f32::MIN`. */
  function DepthMax(samples: seq<real>): real {
    if |samples| == 0 then -F32Max
    else
      var m := DepthMax(samples[..|samples| - 1]);
      var d := samples[|samples| - 1];
      if d < DepthCutoff && m < d then d else m
  }

  /** The samples of all depth maps, map after map. */
  function AllSamples(maps: seq<AlphaMaps.Pfm>): seq<real> {
    if |maps| == 0 then [] else AllSamples(maps[..|maps| - 1]) + maps[|maps| - 1].data
  }

  predicate Accepted(d: real) {
    d < DepthCutoff
  }

  /** Every accepted sample lies in [min, max]; when some sample is accepted
      both ends are accepted samples, and when none is the fold keeps its
      starting values. Samples are finite `f32` values, so none lies below
      `f32::MIN`. */
  lemma {:induction false} DepthRangeBounds(samples: seq<real>)
    requires forall i :: 0 <= i < |samples| ==> -F32Max <= samples[i]
    ensures forall i :: 0 <= i < |samples| && Accepted(samples[i]) ==>
      DepthMin(samples) <= samples[i] <= DepthMax(samples)
    ensures (exists i :: 0 <= i < |samples| && Accepted(samples[i])) ==>
      && (exists i :: 0 <= i < |samples| && Accepted(samples[i]) && samples[i] == DepthMin(samples))
      && (exists i :: 0 <= i < |samples| && Accepted(samples[i]) && samples[i] == DepthMax(samples))
    ensures (forall i :: 0 <= i < |samples| ==> !Accepted(samples[i])) ==>
      DepthMin(samples) == F32Max && DepthMax(samples) == -F32Max
  {
    if |samples| > 0 {
      var n := |samples| - 1;
      var init := samples[..n];
      forall i | 0 <= i < n
        ensures -F32Max <= init[i]
      {
        assert init[i] == samples[i];
      }
      DepthRangeBounds(init);
      forall i | 0 <= i < n
        ensures samples[i] == init[i]
      {
      }
      if Accepted(samples[n]) && !(exists i :: 0 <= i < n && Accepted(init[i])) {
        assert DepthMin(samples) == samples[n];
        assert DepthMax(samples) == samples[n];
      }
      if exists i :: 0 <= i < n && Accepted(init[i]) {
        var a :| 0 <= a < n && Accepted(init[a]) && init[a] == DepthMin(init);
        var b :| 0 <= b < n && Accepted(init[b]) && init[b] == DepthMax(init);
        assert samples[a] == init[a] && samples[b] == init[b];
      }
    }
  }

  /** The result of loading the depth maps. */
  datatype DepthInfo = DepthInfo(depthMaps: seq<AlphaMaps.Pfm>, indices: seq<nat>, min: real, max: real)

  /** One more sample extends each fold by one step. */
  lemma FoldStep(samples: seq<real>, d: real)
    ensures DepthMin(samples + [d]) == if Accepted(d) && d < DepthMin(samples) then d else DepthMin(samples)
    ensures DepthMax(samples + [d]) == if Accepted(d) && DepthMax(samples) < d then d else DepthMax(samples)
  {
    assert (samples + [d])[..|samples|] == samples;
  }

  lemma AllSamplesAppend(maps: seq<AlphaMaps.Pfm>, m: AlphaMaps.Pfm)
    ensures AllSamples(maps + [m]) == AllSamples(maps) + m.data
  {
    assert (maps + [m])[..|maps|] == maps;
  }

  /** The inner loop of `load_depth_maps`: fold one depth map's samples into
      the running range. */
  method FoldDepthMap(before: seq<real>, data: seq<real>, min0: real, max0: real) returns (min: real, max: real)
    requires min0 == DepthMin(before) && max0 == DepthMax(before)
    ensures min == DepthMin(before + data) && max == DepthMax(before + data)
  {
    min, max := min0, max0;
    assert before + data[..0] == before;
    for j := 0 to |data|
      invariant min == DepthMin(before + data[..j]) && max == DepthMax(before + data[..j])
    {
      var depth := data[j];
      assert before + data[..j + 1] == (before + data[..j]) + [depth];
      FoldStep(before + data[..j], depth);
      if depth < DepthCutoff {
        min := if depth < min then depth else min;
        max := if max < depth then depth else max;
      }
    }
    assert data[..|data|] == data;
  }

  /** `load_depth_maps` over the decoded depth maps of cameras 0, 1, ...;
      `None` stands for a depth map file that does not exist. */
  method LoadDepthMaps(decoded: seq<Option<AlphaMaps.Pfm>>) returns (r: Result<DepthInfo, string>)
    ensures r.Err? <==> exists i :: 0 <= i < |decoded| && decoded[i].None?
    ensures r.Ok? ==>
      && |r.value.depthMaps| == |decoded|
      && (forall i :: 0 <= i < |decoded| ==> decoded[i] == Some(r.value.depthMaps[i]))
      && |r.value.indices| == |decoded|
      && (forall i :: 0 <= i < |decoded| ==> r.value.indices[i] == i)
      && r.value.min == DepthMin(AllSamples(r.value.depthMaps))
      && r.value.max == DepthMax(AllSamples(r.value.depthMaps))
  {
    var depthMaps: seq<AlphaMaps.Pfm> := [];
    var min, max := F32Max, -F32Max;
    var indices: seq<nat> := [];
    for i := 0 to |decoded|
      invariant |depthMaps| == i && |indices| == i
      invariant forall k :: 0 <= k < i ==> decoded[k] == Some(depthMaps[k]) && indices[k] == k
      invariant min == DepthMin(AllSamples(depthMaps)) && max == DepthMax(AllSamples(depthMaps))
    {
      if decoded[i].None? {
        return Err("depth map does not exist");
      }
      var depthPfm := decoded[i].value;
      min, max := FoldDepthMap(AllSamples(depthMaps), depthPfm.data, min, max);
      AllSamplesAppend(depthMaps, depthPfm);
      depthMaps := depthMaps + [depthPfm];
      indices := indices + [i];
    }
    r := Ok(DepthInfo(depthMaps, indices, min, max));
  }

  /** `slice_thickness`: the depth range split into `numberOfSlices` equal
      slices; the source divides by zero when there are no slices. */
  function SliceThickness(min: real, max: real, numberOfSlices: nat): (thickness: real)
    requires numberOfSlices >= 1
    ensures thickness * numberOfSlices as real == max - min
    ensures min <= max ==> 0.0 <= thickness <= max - min
  {
    (max - min) / numberOfSlices as real
  }

  // ---------------------------------------------------------------------
  // Layer images

  /** An 8-bit RGBA pixel. */
  datatype Rgba = Rgba(r: nat, g: nat, b: nat, a: nat)

  const Transparent := Rgba(0, 0, 0, 0)

  /** Cell (x, y) of a mask exists and is set. */
  predicate IsSet(data: seq<seq<bool>>, x: nat, y: nat) {
    x < |data| && y < |data[x]| && data[x][y]
  }

  /** Every set cell of the mask is a pixel of a w by h image. */
  ghost predicate FitsImage(data: seq<seq<bool>>, w: nat, h: nat) {
    forall x: nat, y: nat :: IsSet(data, x, y) ==> x < w && y < h
  }

  /** `target` is `image` where the mask is set and transparent elsewhere. */
  ghost predicate Masked(target: array2<Rgba>, image: array2<Rgba>, data: seq<seq<bool>>)
    reads target, image
  {
    && target.Length0 == image.Length0 && target.Length1 == image.Length1
    && forall x, y :: 0 <= x < target.Length0 && 0 <= y < target.Length1 ==>
         target[x, y] == (if IsSet(data, x, y) then image[x, y] else Transparent)
  }

  /** The masked copy of one layer: a transparent image of the same size
      that receives the camera pixel at every set cell, and whether any
      cell was set. */
  method MaskedCopy(image: array2<Rgba>, alphaMap: AlphaMaps.AlphaMap) returns (target: array2<Rgba>, found: bool)
    requires FitsImage(alphaMap.data, image.Length0, image.Length1)
    ensures fresh(target) && Masked(target, image, alphaMap.data)
    ensures found <==> |AlphaMaps.SetCells(alphaMap.data)| > 0
  {
    target := new Rgba[image.Length0, image.Length1]((_, _) => Transparent);
    found := false;
    var calls := AlphaMaps.ForEachAlpha(alphaMap);
    AlphaMaps.SetCellsFacts(alphaMap.data);
    for i := 0 to |calls|
      invariant found <==> i > 0
      invariant forall x, y :: 0 <= x < target.Length0 && 0 <= y < target.Length1 ==>
        target[x, y] == (if (x, y) in calls[..i] then image[x, y] else Transparent)
    {
      var (x, y) := calls[i];
      assert calls[i] in calls;
      assert IsSet(alphaMap.data, x, y);
      assert calls[..i + 1] == calls[..i] + [calls[i]];
      target[x, y] := image[x, y];
      found := true;
    }
    assert calls[..|calls|] == calls;
  }

  /** The indices of the masks with at least one set cell, ascending. */
  function NonEmptyLayers(maps: seq<AlphaMaps.AlphaMap>): seq<nat> {
    if |maps| == 0 then []
    else
      NonEmptyLayers(maps[..|maps| - 1])
        + (if |AlphaMaps.SetCells(maps[|maps| - 1].data)| > 0 then [|maps| - 1] else [])
  }

  /** Exactly the masks with a set cell are emitted, in increasing index
      order. */
  lemma {:induction false} NonEmptyLayersFacts(maps: seq<AlphaMaps.AlphaMap>)
    ensures forall k: nat :: k in NonEmptyLayers(maps) <==> k < |maps| && |AlphaMaps.SetCells(maps[k].data)| > 0
    ensures forall i, j :: 0 <= i < j < |NonEmptyLayers(maps)| ==> NonEmptyLayers(maps)[i] < NonEmptyLayers(maps)[j]
  {
    if |maps| > 0 {
      var n := |maps| - 1;
      NonEmptyLayersFacts(maps[..n]);
      forall k | 0 <= k < n
        ensures maps[k] == maps[..n][k]
      {
      }
      var a := NonEmptyLayers(maps[..n]);
      forall i | 0 <= i < |a|
        ensures a[i] < n
      {
        assert a[i] in a;
      }
    }
  }

  /** One emitted layer: its image, its mask index and the mask's depth
      samples. */
  datatype LayerImage = LayerImage(image: array2<Rgba>, layerIndex: nat, depthValues: Option<seq<real>>)

  function Images(layers: seq<LayerImage>): set<array2<Rgba>> {
    set j | 0 <= j < |layers| :: layers[j].image
  }

  /** `layers` are the masked copies of `image` under the non-empty masks,
      in mask order. */
  ghost predicate LayersOf(layers: seq<LayerImage>, image: array2<Rgba>, maps: seq<AlphaMaps.AlphaMap>)
    reads Images(layers), image
  {
    && |layers| == |NonEmptyLayers(maps)|
    && forall j :: 0 <= j < |layers| ==>
         && layers[j].layerIndex == NonEmptyLayers(maps)[j]
         && layers[j].layerIndex < |maps|
         && layers[j].depthValues == maps[layers[j].layerIndex].depth
         && Masked(layers[j].image, image, maps[layers[j].layerIndex].data)
  }

  /** The layer loop of one camera. */
  method CameraLayers(image: array2<Rgba>, maps: seq<AlphaMaps.AlphaMap>) returns (layers: seq<LayerImage>)
    requires forall k :: 0 <= k < |maps| ==> FitsImage(maps[k].data, image.Length0, image.Length1)
    ensures forall j :: 0 <= j < |layers| ==> fresh(layers[j].image)
    ensures LayersOf(layers, image, maps)
  {
    layers := [];
    for k := 0 to |maps|
      invariant forall j :: 0 <= j < |layers| ==> fresh(layers[j].image)
      invariant LayersOf(layers, image, maps[..k])
    {
      var target, found := MaskedCopy(image, maps[k]);
      assert maps[..k + 1][..k] == maps[..k];
      assert maps[..k + 1][k] == maps[k];
      NonEmptyLayersFacts(maps[..k]);
      if found {
        layers := layers + [LayerImage(target, k, maps[k].depth)];
      }
    }
    assert maps[..|maps|] == maps;
  }

  /** One camera's thread body after its files are read: the image extent
      is checked against the metadata, then the layers are cut out; the
      camera's grid coordinates come from `to_xy` of its number. */
  method LoadCamera(index: nat, verticalCount: nat, image: array2<Rgba>, metaWidth: nat, metaHeight: nat,
                    maps: seq<AlphaMaps.AlphaMap>)
    returns (r: Result<(seq<LayerImage>, (nat, nat)), string>)
    requires image.Length0 == metaWidth && image.Length1 == metaHeight ==>
      forall k :: 0 <= k < |maps| ==> FitsImage(maps[k].data, image.Length0, image.Length1)
    ensures r.Err? <==> image.Length0 != metaWidth || image.Length1 != metaHeight
    ensures r.Ok? ==>
      && (forall j :: 0 <= j < |r.value.0| ==> fresh(r.value.0[j].image))
      && LayersOf(r.value.0, image, maps)
      && r.value.1 == AlphaMaps.ToXY(verticalCount, index)
  {
    if image.Length0 != metaWidth || image.Length1 != metaHeight {
      return Err("image has a not expected extent");
    }
    var layers := CameraLayers(image, maps);
    r := Ok((layers, AlphaMaps.ToXY(verticalCount, index)));
  }

  /** Camera i's grid coordinates are those of frustum i with the two axes
      exchanged: the loader numbers cameras as (i % h, i / h), the frustum
      grid as (i / h, i % h). */
  lemma CameraCoordinatesTransposed(positions: seq<(nat, nat)>, height: nat, i: nat)
    requires height >= 1 && CameraFrustums.RowMajor(positions, height) && i < |positions|
    ensures AlphaMaps.ToXY(height, i) == (positions[i].1, positions[i].0)
  {
  }
}
