// The intrinsic section of a parameters file: focal length, resolution,
// sensor size and aperture of every camera.
module IntrinsicConfig {
  import opened Wrappers
  import opened Numeric
  import opened ConfigValues

  /** Lengths are in millimetres and the resolution in pixels. */
  datatype Intrinsic = Intrinsic(focalLength: real, imageWidth: U32, imageHeight: U32, sensorSize: real, fstop: real)

  const FocalLength := Field("focal_length_mm", "focal length not present", F32Kind)
  const ImageWidth := Field("image_resolution_x_px", "image width not present", U32Kind)
  const ImageHeight := Field("image_resolution_y_px", "image height not present", U32Kind)
  const SensorSize := Field("sensor_size_mm", "sensor_size not present", F32Kind)
  const Fstop := Field("fstop", "fstop not present", F32Kind)

  /** The required keys in the order `load` reads them. */
  const Fields: seq<Field> := [FocalLength, ImageWidth, ImageHeight, SensorSize, Fstop]

  /** `Intrinsic::load`: the five keys in order, stopping at the first one
      that is absent or of the wrong type. */
  function Load(data: map<string, Value>): (r: Result<Intrinsic, string>)
    ensures r.Ok? <==> FirstProblem(data, Fields).None?
    ensures r.Err? ==> FirstProblem(data, Fields) == Some(r.error)
    ensures r.Ok? ==> r.value == Intrinsic(
      RealOf(data, FocalLength.key), U32Of(data, ImageWidth.key), U32Of(data, ImageHeight.key),
      RealOf(data, SensorSize.key), RealOf(data, Fstop.key))
  {
    assert Fields[..0] == [];
    var focalLength :- Require(data, Fields, 0);
    var imageWidth :- Require(data, Fields, 1);
    var imageHeight :- Require(data, Fields, 2);
    var sensorSize :- Require(data, Fields, 3);
    var fstop :- Require(data, Fields, 4);
    assert Fields[..5] == Fields;
    Ok(Intrinsic(AsReal(focalLength), AsU32(imageWidth), AsU32(imageHeight), AsReal(sensorSize), AsReal(fstop)))
  }
}
