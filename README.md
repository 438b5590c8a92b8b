# LightFieldVRViewer core, modelled in Dafny

LightFieldVRViewer shows a captured light field in a VR headset or on a
desktop. It starts from a grid of camera images with per-pixel disparity
and depth maps. It cuts every image into depth layers, places the layers of
all cameras on a stack of planes in front of the viewer, and picks, for
every frame and every plane, up to four camera images to blend for the
viewer's current position.

This project models the core of that pipeline and proves what it does:

- **Image selection** (`interpolation.dfy`, module `Interpolation`): the
  viewer is projected onto each plane and given plane coordinates. The
  nine regions around the plane are told apart. Each region searches the
  nearest image centre in one or more quadrants. The selectors of one, two
  and four images, with their error cases, are modelled, and so is the loop
  that writes the per-plane selector records.
- **Debug ray probe** (`ray_debug.dfy`, module `RayDebug`): the debugger's
  own copies of the plane lookup from a triangle index, the bottom-right
  search over an index range, the line-plane intersection and the plane
  coordinates, each proved to agree with the selector's version where both
  are defined.
- **Layer construction** (`light_field_data.dfy`, `light_field.dfy`,
  `alpha_maps.dfy`): depth range over all depth maps, slice masks from the
  disparity map, masked layer images, grouping of layer images by layer
  index, the average depth of a layer, the placement of each camera's image
  on its plane, the light field's frustum and its inside check.
- **Camera grid** (`light_field_frustum.dfy`, module `CameraFrustums`,
  `light_field_renderer.dfy`, `single_view.dfy`): one frustum per camera in
  row-major order, the position map built from them, the textured quads of
  the renderer and the single-view debug layout.
- **Statistics containers** (`ranges.dfy`, `counted_vec.dfy`): `Ranges`
  (values clustered into ranges around their running average) and
  `CountedVec` (a counting multiset), as classes whose methods update their
  fields, with their weighted averages.
- **Input state machines** (`layer_debugger.dfy`, `view_emulator.dfy`): the
  layer debugger's layer and image selection keys, and the desktop view
  emulator's direction counters, slow mode and per-frame movement.
- **Parameters file** (`config_values.dfy`, `config_loader.dfy`,
  `intrinsic.dfy`, `extrinsic.dfy`, `meta.dfy`): the three sections loaded
  in order, each key looked up and converted in order, the first failure
  reported; the authors list split at commas and trimmed; the axis swap.

Shared pieces: `wrappers.dfy` (`Option`, `Result`), `vectors.dfy` (vector
arithmetic over `real`), `search.dfy` (the first strict minimum of a
filtered list under a bound, used by both nearest-image searches),
`numeric.dfy`, `grid_arithmetic.dfy`, `real_arithmetic.dfy` and
`viewer_types.dfy` (the records shared with the shaders).

Floats are modelled as `real`. A vector's length is a function parameter
`magnitude` (with `IsMagnitude`: non-negative, its square is the dot
product), and normalisation is a parameter `normalize`. Where the code and
its documentation disagree, the model follows the code: the plane
coordinate `x` of `calculate_barycentrics` is measured along the plane's
vertical edge and divided by the horizontal edge's length
(`Interpolation.BarycentricsOfRectangle` states this exactly).

Some call sites in the repository do not match the definitions shown.
`src/light_field/mod.rs` calls `AlphaMaps::new(pfm, count, min, thickness)`
and `AlphaMaps::to_xy(height, index)`, while `src/light_field/alpha_maps.rs`
defines `new(path, count, epsilon)` and `to_xy(pfm, index)`. The model
follows `alpha_maps.rs` and passes the decoded map and its height.
`light_field_data.rs` and `light_field_renderer.rs` use a camera frustum's
`get_corners_at_depth` and `main_direction`, which are not defined in the
shown `light_field_frustum.rs`; they are parameters (`cornersAt`,
`mainDirection`).
`src/light_field/mod.rs` hands each layer image on with the mask's depth
samples as an `Option<Vec<f32>>`, while `LightFieldData::new` takes a
`Vec<f32>` and reads its middle element. The model of
`LightFieldData::new` takes the list itself (`seq<real>`) and assumes that
every image reaching it carries a present, non-empty list. No shown code
establishes this: `load_depth` would store a non-empty list for every mask
with a set cell (`AlphaMaps.LoadedDepthNonEmpty`), but no shown caller
invokes it, and the masks built by `AlphaMaps::new` as shown carry no
depth list.

## Model

| member | source | states |
|---|---|---|
| Interpolation.New | src/interpolation.rs:92-106 | one plane per input triple, in input order, with all four corners and the normal truncated to three components, and the image infos and the frustum of that triple |
| Interpolation.PlaneLineIntersection | src/interpolation.rs:298-326 | no intersection exactly when the line is parallel to the plane or starts on it; otherwise the point lies on the plane and is `origin + t * direction` with the algebraic `t` |
| Interpolation.BarycentricsOfTopLeft | src/interpolation.rs:328-339 | the plane's top-left corner gets coordinates (0, 0) |
| Interpolation.BarycentricsOfRectangle | src/interpolation.rs:328-347 | on a rectangular plane, the point `topLeft + a * horizontal + b * vertical` gets x = b * lenV / lenH and y = a * lenH / lenV: x follows the vertical edge |
| Interpolation.QueryPointInEveryQuadrant | src/interpolation.rs:349-379 | an image centre at the query point itself passes the filter of all four quadrant searches (the filters use non-strict comparisons) |
| Interpolation.ClosestIsNearest | src/interpolation.rs:382-414 | the search finds nothing iff no centre in the quadrant is nearer than `f32::MAX`; otherwise it returns a centre in the quadrant that is nearest of all candidates and the earliest one among equally near candidates |
| Interpolation.FindClosest | src/interpolation.rs:382-414 | the loop over the plane's images returns exactly the specified nearest candidate, with its index cast to i32 |
| Interpolation.SelectorOfOne | src/interpolation.rs:416-425 | succeeds iff an image was found, with indices (i, -1, -1, -1) and weight (0, 0); otherwise the "nothing found" error naming the search |
| Interpolation.SelectorOfTwoY | src/interpolation.rs:427-452 | with both images found, succeeds iff the upper centre is above the lower one, weighted by the distance to the lower centre, and otherwise fails the assertion; with one image it degrades to the one-image selector; with none it errs |
| Interpolation.SelectorOfTwoX | src/interpolation.rs:454-479 | the same for two images side by side, ordered left of right, weighted by the distance to the right centre |
| Interpolation.SelectorOfFour | src/interpolation.rs:481-570 | four images give the (bottom-left, top-left, bottom-right, top-right) selector weighted by the distance to the bottom-right centre; any single image i gives (i, -1, -1, -1) with weight (0, 0); zero or three images, and two diagonal ones, are "no fitting constellation"; each two-image layout along an edge goes to the matching two-image selector |
| Interpolation.SelectorOfFourSlots | src/interpolation.rs:481-570 | every successful four-quadrant selector is -1-terminated and fills exactly as many slots as images were found (1, 2 or 4) |
| Interpolation.RegionOf | src/interpolation.rs:167-284 | the nine regions around the plane: inside iff both coordinates are in [0, 1]; above iff y < 0, below iff y > 1, left iff x < 0, right iff x > 1 |
| Interpolation.Clamp | src/interpolation.rs:167-284 | a coordinate inside [0, 1] is kept; one outside is replaced by a value strictly inside |
| Interpolation.ViewerSelectionSearchesClampedPoint | src/interpolation.rs:167-284 | every search of the region dispatch runs at the viewer's coordinates pulled to 0.0001 or 0.9999 on each axis where the viewer is off the plane |
| Interpolation.RegionSlotCounts | src/interpolation.rs:167-284 | a viewer in a corner region gets a one-image selector, and one in any region off the plane gets at most two images |
| Interpolation.SelectForViewer | src/interpolation.rs:167-284 | the region dispatch computes exactly the specified selection for the viewer's plane coordinates |
| Interpolation.CalculateInterpolation | src/interpolation.rs:108-295 | planes are visited in order; a plane met by the line from the viewer against its normal gets the selection for the viewer's plane coordinates written, a plane not met keeps its record; success iff no plane's selection fails; otherwise the first failing plane's error is returned, planes before it are written and planes from it on keep their old record; records past the planes never change |
| RayDebug.F32ToUsize | src/debug.rs:164-192 | `as usize` of a float truncates toward zero: the result is the floor for non-negative input and 0 below 1 |
| RayDebug.OddPrimitiveSharesQuad | src/debug.rs:164-192 | both triangles of a pair resolve to the same plane |
| RayDebug.GetPlaneOfQuad | src/debug.rs:164-192 | triangle p belongs to quad q = p / 2: its corners and normal are read from vertices 6q to 6q + 5 and its image index range from the w components of vertex 6q, truncated to usize |
| RayDebug.ClosestBottomRightIsNearest | src/debug.rs:131-162 | only records in the given index range are looked at; nothing is found iff no record lies bottom-right within Manhattan distance 2; otherwise the result is bottom-right and Manhattan-nearest, the first on ties |
| RayDebug.FindClosestBottomRight | src/debug.rs:131-162 | the loop returns exactly the specified bottom-right record of the range |
| RayDebug.PlaneLineIntersection | src/debug.rs:202-217 | for a line not parallel to the plane, the result lies on the plane |
| RayDebug.IntersectionsAgree | src/debug.rs:202-217 | where both are defined, the debugger's intersection equals the selector's, and the debugger also answers for an origin on the plane, where the selector reports none |
| RayDebug.BarycentricsAgree | src/debug.rs:219-230 | the debugger's plane coordinates equal the selector's for the same corners |
| RayDebug.InterpolateImages | src/debug.rs:56-129 | fails exactly when the viewer is above-left of the plane and the bottom-right search over the plane's image range finds nothing |
| LightFieldData.FrustumPlaneSpannedByDirections | src/light_field/light_field_data.rs:73-85 | the plane keeps its point, and when the normalisation only rescales the cross product, its normal is perpendicular to both spanning directions |
| LightFieldData.IsAboveAgainstNormal | src/light_field/light_field_data.rs:87-89 | for a non-zero normal, the point reached from the plane's point by t steps against the normal is above the plane exactly when t > 0 |
| LightFieldData.PlanePointsNotAbove | src/light_field/light_field_data.rs:87-89 | no point on the plane is above it |
| LightFieldData.CheckRejectsSidePlanes | src/light_field/light_field_data.rs:59-64 | a point on any of the four side planes fails the inside check |
| LightFieldData.FindLayer | src/light_field/light_field_data.rs:155-168 | the result is the first group of the given layer, and none exactly when no group has it |
| LightFieldData.GroupLayersAreFirstAppearances | src/light_field/light_field_data.rs:143-170 | the groups' layers are the input's layer indices in order of first appearance |
| LightFieldData.GroupLayersDistinct | src/light_field/light_field_data.rs:143-170 | no two groups share a layer, and every input layer has a group |
| LightFieldData.GroupHoldsImagesOfLayer | src/light_field/light_field_data.rs:143-170 | each group holds exactly the images tagged with its layer, in input order |
| LightFieldData.EachImageInItsGroup | src/light_field/light_field_data.rs:143-170 | every input image sits in the group of its own layer |
| LightFieldData.ImagesOfLayerMembers | src/light_field/light_field_data.rs:143-170 | a layer's images are all images tagged with it and no more of them than the input holds |
| LightFieldData.GroupImages | src/light_field/light_field_data.rs:143-170 | the two grouping loops compute exactly the specified grouping of all cameras' images |
| LightFieldData.GroupsReady | src/light_field/light_field_data.rs:143-170 | no group is empty, and when every image has a depth sample, so does every group's image list |
| LightFieldData.AverageDepth | src/light_field/light_field_data.rs:187-197 | the accumulation loop computes the mean of the images' middle depth samples |
| LightFieldData.LayerDepthBetweenSamples | src/light_field/light_field_data.rs:187-197 | a layer's depth lies between the smallest and the largest middle sample of its images |
| LightFieldData.PlacedRectangle | src/light_field/light_field_data.rs:220-241 | each image spans one camera's width and height as ratios of the plane, and its centre is the middle of that rectangle |
| LightFieldData.NeighboursShiftByBaseline | src/light_field/light_field_data.rs:220-241 | camera (0, 0) starts at ratios (0, 0); raising the second grid coordinate moves the image right by one baseline over the plane's width, raising the first moves it down by one baseline over the plane's height |
| LightFieldData.LastCameraReachesEdge | src/light_field/light_field_data.rs:220-241 | when the plane is one camera wide plus one baseline per further camera, in both directions, the last camera's image ends at ratio 1 on the right and at the bottom |
| LightFieldData.Placements | src/light_field/light_field_data.rs:225-252 | one entry per image of the layer, in group order, each with that image's placement rectangle and centre |
| LightFieldData.NoPlanesIffAllLayersTooDeep | src/light_field/light_field_data.rs:187-261 | there are never more planes than layers, and there are none exactly when every layer lies deeper than 100000 |
| LightFieldData.BuildPlanes | src/light_field/light_field_data.rs:187-262 | the layer loop builds exactly one plane per layer not deeper than 100000, in group order |
| LightFieldData.CreatedGridHasCorners | src/light_field/light_field_data.rs:174-178 | the frustums `create_frustums` builds always contain the four corner cameras, each found at its own position |
| LightFieldData.CornerLookup | src/light_field/light_field_data.rs:137-141 | after `create_frustums`, every grid cell is a key of the position map and holds the frustum of that cell |
| LightFieldData.New | src/light_field/light_field_data.rs:124-292 | the result holds the planes of the grouped layers, the frustum through the four corner cameras, the top-left camera's direction and the four outer edges from depth 0 to the maximum depth |
| LightFieldData.EmptyIffAllLayersTooDeep | src/light_field/light_field_data.rs:294-300 | the built light field is empty exactly when every layer lies deeper than 100000, and never holds more planes than layers |
| CameraFrustums.CreateLine | src/light_field/light_field_frustum.rs:16-21 | the ray is anchored at the given centre |
| CameraFrustums.CornersSymmetric | src/light_field/light_field_frustum.rs:105-120 | opposite corners are symmetric about the centre, and the sides are `2 * distance` along `right` and `up` |
| CameraFrustums.New | src/light_field/light_field_frustum.rs:72-102 | the frustum records its grid position (x, y) |
| CameraFrustums.NewRaysFromApertureSquare | src/light_field/light_field_frustum.rs:72-102 | the corner rays start on a square around the camera centre whose side is twice the f-stop along `right`, and the top-left ray points along the viewing direction scaled by the focal length, tilted by f-stop minus sensor size up and to the left |
| CameraFrustums.MiddleCameraAtCenter | src/light_field/light_field_frustum.rs:49-55 | the camera at the integer middle of the grid sits at the configured centre |
| CameraFrustums.NeighboursOneBaselineApart | src/light_field/light_field_frustum.rs:52-55 | neighbouring cameras are one baseline apart, along `right` for x and down `up` for y |
| CameraFrustums.CreateFrustums | src/light_field/light_field_frustum.rs:36-70 | w * h frustums, number x * h + y being camera (x, y) |
| CameraFrustums.GridPositionsAreABijection | src/light_field/light_field_frustum.rs:36-70 | every camera of the grid occurs exactly once, at number x * h + y |
| CameraFrustums.PositionMapLastWins | src/light_field/light_field_renderer.rs:111-115 | a position is a key iff some frustum has it, and the frustum stored is the last one with that position |
| CameraFrustums.SortFrustums | src/light_field/light_field_renderer.rs:111-115 | the insertion loop builds exactly that position map |
| CameraFrustums.GridLookup | src/light_field/light_field_frustum.rs:36-70 | after `create_frustums`, every cell (x, y) of the grid is found in the position map and holds the frustum built for it |
| AlphaMaps.NewAlphaMap | src/light_field/alpha_maps.rs:20-26 | `width` rows of `height` cells, all unset, no depth samples |
| AlphaMaps.ToXY | src/light_field/alpha_maps.rs:111-117 | for a non-zero height the first coordinate is below the height, so it addresses a row of the map |
| AlphaMaps.ToIndexOfToXY | src/light_field/alpha_maps.rs:111-122 | `to_index` undoes `to_xy` for every height and index |
| AlphaMaps.ToXYOfToIndex | src/light_field/alpha_maps.rs:111-122 | `to_xy` undoes `to_index` for every x below the height |
| AlphaMaps.CellOfIndex | src/light_field/alpha_maps.rs:111-122 | for x below the height, cell (x, y) has number i exactly when `to_xy` of i is (x, y) |
| AlphaMaps.NewAlphaMaps | src/light_field/alpha_maps.rs:51-67 | max(count, 1) masks of the map's size without depth samples; cell (x, y) of mask k is set iff the disparity map has a sample at `to_index(x, y)` and it is within epsilon of k |
| AlphaMaps.IndicesFitOnlyForSquare | src/light_field/alpha_maps.rs:51-67 | a full disparity map has every sample land inside the masks only when it is square: `to_xy` takes the row from the remainder by the height while there are `width` rows, so any other map indexes out of bounds |
| AlphaMaps.SetCellsFacts | src/light_field/alpha_maps.rs:28-39 | the visited cells are exactly the set cells, each once, in row-major order |
| AlphaMaps.ForEachAlpha | src/light_field/alpha_maps.rs:28-39 | the callback is called with exactly the set cells in visiting order |
| AlphaMaps.InsertKeepsSorted | src/light_field/alpha_maps.rs:69-93 | inserting into a sorted list keeps it sorted and adds exactly that value |
| AlphaMaps.IntoSortedVec | src/light_field/alpha_maps.rs:69-93 | the heap's sorted vector is sorted and a permutation of the pushed samples |
| AlphaMaps.LoadDepth | src/light_field/alpha_maps.rs:69-93 | each mask keeps its cells; a mask with a set cell gets the depth samples under its set cells, sorted, and a mask without one keeps its old depth |
| AlphaMaps.LoadedDepthNonEmpty | src/light_field/alpha_maps.rs:81-89 | a mask that receives depth samples receives one per set cell, so its list is never empty |
| LightField.DepthRangeBounds | src/light_field/mod.rs:187-222 | every sample below 10000 lies in [min, max], min and max are such samples when there is one, and they stay at `f32::MAX` and `f32::MIN` otherwise |
| LightField.FoldDepthMap | src/light_field/mod.rs:203-208 | the inner loop extends the running minimum and maximum by one map's samples |
| LightField.LoadDepthMaps | src/light_field/mod.rs:187-222 | fails iff some depth map is missing; otherwise keeps all maps with their indices 0, 1, ... and the depth range of all their samples |
| LightField.SliceThickness | src/light_field/mod.rs:62 | the slices split the depth range into equal parts: thickness times the slice count is max - min |
| LightField.MaskedCopy | src/light_field/mod.rs:113-130 | the target has the image's size, equals the image where the mask is set and is transparent elsewhere; `found` iff the mask has a set cell |
| LightField.NonEmptyLayersFacts | src/light_field/mod.rs:113-130 | exactly the masks with a set cell yield a layer, in increasing layer index |
| LightField.CameraLayers | src/light_field/mod.rs:111-130 | one masked copy per non-empty mask, with its layer index and the mask's depth samples, each a fresh image |
| LightField.LoadCamera | src/light_field/mod.rs:98-132 | fails exactly when the image's extent differs from the configured one; otherwise returns the camera's layers and its `to_xy` grid coordinates |
| LightField.CameraCoordinatesTransposed | src/light_field/mod.rs:73 | camera i's grid coordinates are frustum i's position with the two axes exchanged |
| Ranges.SumOfBounds | src/light_field/ranges.rs:94-96 | a sum of values between lo and hi lies between n * lo and n * hi |
| Ranges.MeanFacts | src/light_field/ranges.rs:98-100 | the mean times the count is the sum, and the mean of a range lies between its minimum and maximum |
| Ranges.CountedRange.constructor | src/light_field/ranges.rs:83-92 | an empty range with the given distance and min = max = 0 |
| Ranges.CountedRange.Average | src/light_field/ranges.rs:98-100 | the average times the count is the sum, and lies between the range's min and max |
| Ranges.CountedRange.Len | src/light_field/ranges.rs:124-126 | the number of values held |
| Ranges.CountedRange.Insert | src/light_field/ranges.rs:102-122 | the value is taken iff the range is empty or the value is within the distance of the average; a taken value is appended and the first one sets min and max; a refused value changes nothing |
| Ranges.FirstAccepting | src/light_field/ranges.rs:61-71 | the first range that accepts the value, and none exactly when no range accepts it |
| Ranges.InsertIntoCounts | src/light_field/ranges.rs:61-79 | inserting adds exactly one value in total and never leaves an empty range |
| Ranges.Ranges.constructor | src/light_field/ranges.rs:21-29 | no range, no element, the given distance |
| Ranges.Ranges.IsEmpty | src/light_field/ranges.rs:31-33 | for a valid container, empty iff nothing was inserted |
| Ranges.Ranges.AddNewRange | src/light_field/ranges.rs:73-79 | one new range holding only the value, appended after the existing ones |
| Ranges.Ranges.OfferToRanges | src/light_field/ranges.rs:61-71 | the value joins the first range that accepts it, if any |
| Ranges.Ranges.Insert | src/light_field/ranges.rs:61-71 | the element count grows by one and the value joins the first accepting range or a new one |
| Ranges.Ranges.WeightedAverage | src/light_field/ranges.rs:43-59 | the mean of all values in the ranges holding at least `threshold` of all elements, none when no range does |
| Ranges.WeightedAverageNone | src/light_field/ranges.rs:43-59 | with no empty range, there is no weighted average exactly when no range qualifies |
| Ranges.WeightedAverageOfAll | src/light_field/ranges.rs:43-59 | when every range qualifies, the weighted average is taken over all values held |
| CountedVecs.Position | src/light_field/counted_vec.rs:47-52 | the first entry holding the value, and none exactly when no entry holds it |
| CountedVecs.InsertKeepsCounts | src/light_field/counted_vec.rs:47-52 | inserting keeps the entries an exact count of the inserted values: distinct values, each counted as often as inserted, counts summing to the number of inserts |
| CountedVecs.CountedVec.constructor | src/light_field/counted_vec.rs:43-45 | no entry, nothing inserted |
| CountedVecs.CountedVec.IsEmpty | src/light_field/counted_vec.rs:58-60 | for a valid vector, empty iff nothing was inserted |
| CountedVecs.CountedVec.Insert | src/light_field/counted_vec.rs:47-52 | a present value has its count incremented in place, a new one is appended with count 1, and the counting invariant is kept |
| CountedVecs.CountedVec.WeightedAverage | src/light_field/counted_vec.rs:74-109 | the count-weighted mean of the values whose count exceeds `threshold` of the total, 0 when none does |
| CountedVecs.WeightedAverageOfAll | src/light_field/counted_vec.rs:74-109 | when every entry qualifies, the result is the count-weighted mean of all values |
| CountedVecs.ThresholdAtLeastOne | src/light_field/counted_vec.rs:74-109 | a threshold of 1 or more excludes every entry, so the result is 0 |
| LightFieldRenderer.CreateQuad | src/light_field/light_field_renderer.rs:20-59 | six vertices forming triangles (lt, lb, rb) and (rb, rt, lt), each with the texture coordinate of its corner and the index cast to u32 |
| LightFieldRenderer.New | src/light_field/light_field_renderer.rs:106-140 | fails iff some camera has no frustum at its coordinates; otherwise one texture slot per image in processing order and, for image k, the quad at its depth in its camera's frustum at vertices 6k to 6k + 5 |
| SingleView.NewLayout | src/light_field/single_view.rs:41-51 | the drawn height keeps the image's aspect ratio, and the field is w images plus w - 1 gaps wide and h images plus h - 1 gaps tall |
| SingleView.FieldCentred | src/light_field/single_view.rs:47-51 | the field is centred on the plane centre |
| SingleView.ViewShape | src/light_field/single_view.rs:53-65 | each view is a rectangle 0.2 m wide and as tall as the drawn height, spanned by `right` and `up` |
| SingleView.ViewOffset | src/light_field/single_view.rs:53-65 | view (x, y) is view (0, 0) moved x image-plus-gap widths right and y image-plus-gap heights down |
| SingleView.LastViewAtFieldEdge | src/light_field/single_view.rs:41-65 | the last view's bottom-right corner is the field's bottom-right corner |
| SingleView.ViewVertices | src/light_field/single_view.rs:67-74 | six vertices forming triangles (tl, bl, br) and (br, tr, tl), texture v growing downwards |
| SingleView.LayerCenterSteps | src/light_field/single_view.rs:128-136 | layer `start` sits at the plane centre and each further layer one image width further along the direction |
| SingleView.NewSingleViewLayer | src/light_field/single_view.rs:118-150 | one view per image, drawn around the plane centre moved by its layer relative to the layer at half the image count |
| LayerDebuggers.ImageOfDigit | src/debug/mod.rs:168-207 | keys 1 to 9 select images 0 to 8, and key 0 selects all images |
| LayerDebuggers.LayerDebugger.constructor | src/debug/mod.rs:92-104 | layer 0 and all images selected |
| LayerDebuggers.LayerDebugger.HandleInput | src/debug/mod.rs:152-210 | `+` moves one layer up, wrapping like the atomic add; `-` one layer down but not below 0; a digit selects an image; other keys change nothing |
| LayerDebuggers.LayerDebugger.SelectPlane | src/debug/mod.rs:284-288 | the current layer, or the last plane when the layer index runs past the end |
| LayerDebuggers.LayerDebugger.CreateImageData | src/debug/mod.rs:290-314 | every image of the plane when all are selected, otherwise only the selected one |
| LayerDebuggers.SelectLightField | src/debug/mod.rs:278-282 | the selection is one of the given light fields |
| LayerDebuggers.PlusMinusInverse | src/debug/mod.rs:152-167 | `-` undoes `+` below the wrap-around point and `+` undoes `-` above layer 0; `-` at layer 0 changes nothing |
| LayerDebuggers.MinusSaturates | src/debug/mod.rs:159-167 | pressing `-` n times from layer i ends at max(i - n, 0) |
| LayerDebuggers.PlusWraps | src/debug/mod.rs:154-158 | pressing `+` n times counts up by n modulo the `usize` range |
| ViewEmulators.KeyUpUndoesKeyDown | src/view_emulator.rs:159-187 | releasing a key undoes pressing it and the other way round, for every key but shift, which sets and clears slow mode |
| ViewEmulators.KeyDelta | src/view_emulator.rs:159-187 | a press moves the counters by the key's delta and a release by its negation; no counter key touches slow mode |
| ViewEmulators.ApplyIsNet | src/view_emulator.rs:159-187 | after any sequence of key events each counter is its start value plus the net of presses and releases, whatever their order |
| ViewEmulators.EffectiveSpeed | src/view_emulator.rs:202-218 | slow mode uses a quarter of the speed, otherwise the full speed |
| ViewEmulators.TurnsCancel | src/view_emulator.rs:105-111 | turning one way then the other for the same time restores the angle, and only the sign of the counter matters |
| ViewEmulators.StrafeGeometry | src/view_emulator.rs:115-124 | strafing is perpendicular to the viewing direction in the horizontal plane; left then right cancels except for twice the direction's vertical part |
| ViewEmulators.OppositeMovesCancel | src/view_emulator.rs:126-146 | forward then back, or up then down, for the same time returns to the start |
| ViewEmulators.NoCountersNoMovement | src/view_emulator.rs:113-146 | with no movement counter set, the position does not change |
| ViewEmulators.ViewEmulator.constructor | src/view_emulator.rs:37-98 | the given start position, angle 0, no key held, slow mode off, the given speeds and the clock reading |
| ViewEmulators.ViewEmulator.OnKeyDown | src/view_emulator.rs:159-172 | only the controls change, as a key press prescribes |
| ViewEmulators.ViewEmulator.OnKeyUp | src/view_emulator.rs:174-187 | only the controls change, as a key release prescribes |
| ViewEmulators.ViewEmulator.MovementSpeed | src/view_emulator.rs:202-209 | the movement speed, a quarter of it in slow mode |
| ViewEmulators.ViewEmulator.TurnSpeed | src/view_emulator.rs:211-218 | the turn speed, a quarter of it in slow mode |
| ViewEmulators.ViewEmulator.Update | src/view_emulator.rs:100-157 | the clock always advances; with no counter set nothing else changes; otherwise the angle turns first and the position then moves along the new direction by speed times elapsed time |
| ConfigValues.ToU32 | src/config/extrinsic.rs:43-46 | converts exactly the integers in the u32 range, and fails with the conversion error otherwise |
| ConfigValues.ToU64 | src/config/meta.rs:70-73 | converts exactly the integers in the u64 range |
| ConfigValues.ToF32 | src/config/extrinsic.rs:53-56 | converts floats and integers, and fails on text |
| ConfigValues.ToText | src/config/meta.rs:49-52 | converts exactly text values |
| ConfigValues.Get | src/config/extrinsic.rs:43-45 | the value under the key, or the section's own message when the key is absent |
| ConfigValues.FirstProblem | src/config/extrinsic.rs:40-95 | no problem iff every field is present and converts; otherwise the problem of the first field that does not |
| ConfigValues.FirstProblemIsFirstUnavailable | src/config/extrinsic.rs:40-95 | whichever field is the first unavailable one, its problem is the one reported |
| ConfigValues.Require | src/config/extrinsic.rs:43-46 | after a clean prefix, succeeds iff the field is present and converts, and otherwise returns the error of the whole field list |
| ConfigLoader.Load | src/config/config_loader.rs:30-56 | intrinsics, extrinsics and meta are looked up and loaded in that order; a missing section gives its own message and a section that fails to load gives that section's first problem, the first failure in this order being the result; success iff all three load, holding each section's values |
| ConfigLoader.SwapAxis | src/config/config_loader.rs:58-65 | y and z trade places and the new z is negated |
| ConfigLoader.SwapAxisFourTimes | src/config/config_loader.rs:58-65 | swapping four times is the identity, twice a half turn around x |
| ConfigLoader.SwapAxisKeepsDot | src/config/config_loader.rs:58-65 | the swap keeps dot products, so lengths and angles |
| IntrinsicConfig.Load | src/config/intrinsic.rs:31-59 | succeeds iff all five keys are present and convert, reporting the first that is not; the result holds each key's value |
| ExtrinsicConfig.Extrinsic.Baseline | src/config/extrinsic.rs:104-107 | the baseline in metres is the stored millimetres divided by 1000 |
| ExtrinsicConfig.DefaultIsEmpty | src/config/extrinsic.rs:110-122 | the default has no cameras and all lengths zero |
| ExtrinsicConfig.Load | src/config/extrinsic.rs:40-95 | succeeds iff all eleven keys are present and convert, reporting the first that is not; the result holds each key's value |
| ExtrinsicConfig.LoadReportsFirstMissingKey | src/config/extrinsic.rs:40-95 | a missing key is reported when every key before it is present and converts |
| MetaConfig.Split | src/config/meta.rs:43-46 | at least one piece and no piece contains a comma |
| MetaConfig.SplitCount | src/config/meta.rs:43-46 | there is one piece more than there are commas |
| MetaConfig.SplitJoin | src/config/meta.rs:43-46 | joining the pieces with commas restores the input |
| MetaConfig.Trim | src/config/meta.rs:45 | the result is a contiguous part of the input that neither starts nor ends with whitespace, and only whitespace is cut off on either side |
| MetaConfig.TrimIdempotent | src/config/meta.rs:45 | trimming twice is trimming once |
| MetaConfig.Authors | src/config/meta.rs:38-46 | one author per comma-separated piece, each piece trimmed |
| MetaConfig.Load | src/config/meta.rs:37-101 | succeeds iff all twelve keys are present and convert, reporting the first that is not (authors first); the result holds each key's value and the split authors |
| MetaConfig.MissingAuthorsReportedFirst | src/config/meta.rs:37-41 | a missing authors entry is the error whatever else is missing |

## Left out

- GPU work is not modelled: buffers, images, descriptor sets, pipelines, acceleration structures, shaders, the `render` methods, `vertex_input_info` and `descriptor_layout`.
- Threads are not modelled: the per-camera threads of `LightField::new` are one sequential call of `LightField.LoadCamera` per camera.
- `LightField::new` as a whole is not one member; its steps are `LightField.LoadDepthMaps`, `LightField.SliceThickness`, `LightField.LoadCamera`, `CameraFrustums.CreateFrustums` and `LightFieldData.New`. Its accessors `frustum`, `outlines`, `direction`, `into_data` and `is_empty` only forward fields of the light field data.
- File and image input is not modelled: reading the parameters file, `open_pfm_file`, `image::open` and `Path::exists`. Decoded maps and images are inputs; a missing depth map is a `None` input.
- Floating point is modelled as exact real arithmetic: rounding, NaN, infinities and f32 overflow are not captured.
- Square root and normalisation are function parameters (`magnitude`, `normalize`) rather than computed values.
- Trigonometry and matrices are not modelled: `camera_rotation_matrix`, `EulerRotation`, the emulator's direction from its angle (the parameter `forward`), `look_at`, `perspective`, `on_resize` and the start position computed with sine and cosine (a parameter of the constructor).
- The emulator's clock is a parameter (`now`) of `ViewEmulators.ViewEmulator.Update`.
- `RayTraceDebugger::new` and `RayTraceDebugger::debug` are not modelled: they only fix a probe position and draw random numbers before calling the modelled `interpolate_images`.
- The inside check that `calculate_interpolation` runs on the viewer's point only sets a flag whose one use is commented out, so `Interpolation.CalculateInterpolation` does not compute it; `LightFieldData.CheckRejectsSidePlanes` states the check itself.
- The `IndexedFloat` helper type of `src/interpolation.rs` is not modelled; nothing in the selection uses it.
- `AlphaMaps::len`, `AlphaMaps::iter` and `AlphaMap::depth_values` are the model's sequence length, the sequence itself and the `depth` field.
- `LightFieldRenderer.New` does not check the descriptor limit of 1024 images; the source does not check it either and only sizes the descriptor set with it.
- Conversions of parameter values into Rust types happen in a library that is not part of this model; `ConfigValues` states them as kinds (u32, u64, f32, text).
- Console output is not modelled: the layer debugger's and the emulator's `println!`, and the diagnostic dump of totals and entries in `CountedVec::weighted_average`.
- CameraFrustums.CreateFrustums: requires at least one camera per axis; with 0 the source's usize subtraction `width - 1` or `height - 1` underflows. The same holds for its grid lemmas.
- ViewEmulators.ViewEmulator.OnKeyDown: the counters are unbounded integers; the source's i32 counters would overflow only after more than two billion unreleased presses.
- SingleView.NewLayout: requires an image height above 0 and at least one camera per axis; with height 0 the source divides by zero in f32 and gets an infinite height, and with 0 cameras `w - 1` underflows.
- LightFieldData.New: requires the four corner cameras in the position map (the source panics on a missing key), non-zero plane extents at every kept layer's depth (the source would divide by zero in f32 and place images at infinite ratios), and at least one depth sample for every image (the source panics indexing an empty `depth_values`).
- Interpolation.CalculateInterpolation: requires planes with edges of non-zero length (the source would divide by zero in f32 when computing plane coordinates).
- Interpolation.FindClosest: ranks candidates by squared distance against the squared bound `f32::MAX * f32::MAX`; the source ranks by the distance itself against `f32::MAX`, which orders candidates the same way.
- RayDebug.PlaneLineIntersection: requires a line not parallel to the plane; the source panics in that case.
- LayerDebuggers.LayerDebugger.SelectPlane: requires at least one plane; the source's `len() - 1` underflows and panics on an empty list.
- LayerDebuggers.LayerDebugger.CreateImageData: requires the selected image to exist; the source panics on an out-of-range index.
- LayerDebuggers.SelectLightField: requires at least one light field, since the source panics on an empty slice; the contract states only that one of the light fields is chosen, while the source always takes the first.
- AlphaMaps.NewAlphaMaps: requires every sample to land inside the masks, which for a full map holds only for square maps (`AlphaMaps.IndicesFitOnlyForSquare`); the source panics only when a sample whose cell lies outside the masks is within epsilon of a layer index, so the model refuses some non-square maps the source accepts.
- AlphaMaps.LoadDepth: requires the depth map to hold a sample at the index of every set cell; the source panics on a shorter depth map.
- RayDebug.GetPlane: requires the six vertices of the triangle's quad to exist; the source panics on an out-of-range index.
- RayDebug.FindClosestBottomRight: requires the index range to lie inside the image records; the source panics on an out-of-range slice.
- Interpolation.CalculateInterpolation: requires at least as many selector records as planes; the source panics when indexing past the end.
- LightField.MaskedCopy: requires every set cell of the mask to lie inside the image; the source panics on a mask larger than the image.
- LightField.CameraLayers: requires every mask's set cells to lie inside the image, for the same reason as `LightField.MaskedCopy`.
- LightField.SliceThickness: requires at least one slice; with zero slices the source divides by zero in f32 and gets an infinite or NaN thickness.
- SingleView.NewSingleViewLayer: requires image heights above 0, and at least one camera per axis when there are images, for the same reasons as `SingleView.NewLayout`.
- Interpolation.SelectorOfTwoX: the source's `assert!` on the order of the two centres aborts the program; the model returns the error `OrderAssertion` instead, and `Interpolation.CalculateInterpolation` returns it like any other selection failure.
- Interpolation.SelectorOfTwoY: the same for the order of the upper and lower centres.
- Ranges.CountedRange.Average: requires a non-empty range; the source divides by zero on an empty one.
- ViewEmulators.ViewEmulator.Update: requires the clock not to run backwards; the source's `Duration` subtraction panics in that case.
