// The extrinsic section of a light field's parameters file: camera grid
// size, baseline, focus distance, offset and the centre camera's pose.
module ExtrinsicConfig {
  import opened Wrappers
  import opened Vectors
  import opened Numeric
  import opened ConfigValues

  /** Camera grid and pose. `baselineMm` is stored in millimetres; the
      rotation holds radians. */
  datatype Extrinsic = Extrinsic(
    horizontalCameraCount: U32, verticalCameraCount: U32,
    baselineMm: real, focusDistance: real,
    cameraCenter: Vec3, cameraRotation: Vec3,
    offset: real)
  {
    /** The baseline in metres. */
    function Baseline(): (r: real)
      ensures r * 1000.0 == baselineMm
    {
      baselineMm * 0.001
    }
  }

  /** `Extrinsic::default()`. */
  const Default := Extrinsic(0, 0, 0.0, 0.0, Zero3, Zero3, 0.0)

  /** The default configuration has no cameras and every length zero. */
  lemma DefaultIsEmpty()
    ensures Default.horizontalCameraCount == 0 && Default.verticalCameraCount == 0
    ensures Default.Baseline() == 0.0 && Default.focusDistance == 0.0 && Default.offset == 0.0
    ensures Default.cameraCenter.Dot(Default.cameraCenter) == 0.0
  {
  }

  const CameraXCount := Field("num_cams_x", "camera x count not present", U32Kind)
  const CameraYCount := Field("num_cams_y", "camera y count not present", U32Kind)
  const BaselineField := Field("baseline_mm", "baseline not present", F32Kind)
  const FocusDistance := Field("focus_distance_m", "focus distance not present", F32Kind)
  const Offset := Field("offset", "offset not present", F32Kind)
  const CameraCenterX := Field("center_cam_x_m", "camera center x not present", F32Kind)
  const CameraCenterY := Field("center_cam_y_m", "camera center y not present", F32Kind)
  const CameraCenterZ := Field("center_cam_z_m", "camera center z not present", F32Kind)
  const CameraRx := Field("center_cam_rx_rad", "camera rx not present", F32Kind)
  const CameraRy := Field("center_cam_ry_rad", "camera ry not present", F32Kind)
  const CameraRz := Field("center_cam_rz_rad", "camera rz not present", F32Kind)

  /** The required keys in the order `load` reads them. */
  const Fields: seq<Field> := [
    CameraXCount, CameraYCount, BaselineField, FocusDistance, Offset,
    CameraCenterX, CameraCenterY, CameraCenterZ, CameraRx, CameraRy, CameraRz]

  /** The record holding the value stored under each key. */
  function Stored(data: map<string, Value>): Extrinsic {
    Extrinsic(
      U32Of(data, CameraXCount.key), U32Of(data, CameraYCount.key),
      RealOf(data, BaselineField.key), RealOf(data, FocusDistance.key),
      Vec3(RealOf(data, CameraCenterX.key), RealOf(data, CameraCenterY.key), RealOf(data, CameraCenterZ.key)),
      Vec3(RealOf(data, CameraRx.key), RealOf(data, CameraRy.key), RealOf(data, CameraRz.key)),
      RealOf(data, Offset.key))
  }

  /** `Extrinsic::load`: starts from the default and fills one field per key;
      the first key that is absent or of the wrong type ends the load. */
  method Load(data: map<string, Value>) returns (r: Result<Extrinsic, string>)
    ensures r.Ok? <==> FirstProblem(data, Fields).None?
    ensures r.Err? ==> FirstProblem(data, Fields) == Some(r.error)
    ensures r.Ok? ==> r.value == Stored(data)
  {
    var config := Default;
    var v: Value;
    assert Fields[..0] == [];

    v :- Require(data, Fields, 0);
    config := config.(horizontalCameraCount := AsU32(v));
    v :- Require(data, Fields, 1);
    config := config.(verticalCameraCount := AsU32(v));
    v :- Require(data, Fields, 2);
    config := config.(baselineMm := AsReal(v));
    v :- Require(data, Fields, 3);
    config := config.(focusDistance := AsReal(v));
    v :- Require(data, Fields, 4);
    config := config.(offset := AsReal(v));

    v :- Require(data, Fields, 5);
    var camX := AsReal(v);
    v :- Require(data, Fields, 6);
    var camY := AsReal(v);
    v :- Require(data, Fields, 7);
    var camZ := AsReal(v);
    v :- Require(data, Fields, 8);
    var camRx := AsReal(v);
    v :- Require(data, Fields, 9);
    var camRy := AsReal(v);
    v :- Require(data, Fields, 10);
    var camRz := AsReal(v);

    config := config.(cameraCenter := Vec3(camX, camY, camZ), cameraRotation := Vec3(camRx, camRy, camRz));
    assert Fields[..11] == Fields;
    r := Ok(config);
  }

  /** A missing key is reported only when every key before it in the list
      is present and well-typed. */
  lemma LoadReportsFirstMissingKey(data: map<string, Value>, k: int)
    requires 0 <= k < |Fields| && Fields[k].key !in data
    requires forall j :: 0 <= j < k ==> Available(data, Fields[j])
    ensures FirstProblem(data, Fields) == Some(Fields[k].missing)
  {
    FirstProblemIsFirstUnavailable(data, Fields, k);
  }
}
