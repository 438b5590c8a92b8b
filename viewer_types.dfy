// Records that several core files exchange. Their Rust definitions live in
// src/light_field_viewer.rs, which is not part of this model; the fields are
// the ones the core files read and write.
module ViewerTypes {
  import opened Vectors
  import opened Numeric
  import LightFieldData

  /** One captured image placed on a plane: its valid region in plane-local
      fractions, the centre of that region, and the image's slot number. */
  datatype PlaneImageInfo = PlaneImageInfo(ratios: LightFieldData.PlaneImageRatios, center: Vec2, imageIndex: U32)

  /** A `Vector4<i32>` of camera slots; -1 marks an unused slot. */
  datatype Indices = Indices(i0: I32, i1: I32, i2: I32, i3: I32)

  /** Per-plane record uploaded to the GPU: the plane's corners and normal and
      the camera selector (`indices`, `bary`) the CPU writes for it. */
  datatype PlaneInfo = PlaneInfo(
    topLeft: Vec4, topRight: Vec4, bottomLeft: Vec4, bottomRight: Vec4, normal: Vec4,
    indices: Indices, bary: Vec2)

  /** A vertex of the triangulated planes; the `w` components smuggle the
      plane's first and last image-record index. */
  datatype PlaneVertex = PlaneVertex(positionFirst: Vec4, normalLast: Vec4)
}
