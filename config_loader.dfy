// The parameters file of a light field: three sections loaded in a fixed
// order, and the axis swap from the file's coordinate convention.
module ConfigLoader {
  import opened Wrappers
  import opened Vectors
  import opened ConfigValues
  import IntrinsicConfig
  import ExtrinsicConfig
  import MetaConfig

  datatype Config = Config(meta: MetaConfig.Meta, intrinsics: IntrinsicConfig.Intrinsic, extrinsics: ExtrinsicConfig.Extrinsic)

  const IntrinsicTag: string := "intrinsics"
  const ExtrinsicTag: string := "extrinsics"
  const MetaTag: string := "meta"

  /** `Config::load` after the file is read: the intrinsic, extrinsic and
      meta sections are looked up and loaded in that order, and the first
      failure is the result. */
  method Load(file: map<string, map<string, Value>>) returns (r: Result<Config, string>)
    ensures IntrinsicTag !in file ==> r == Err("intrinsic tag is missing in config")
    ensures IntrinsicTag in file && IntrinsicConfig.Load(file[IntrinsicTag]).Err? ==>
      r == Err(IntrinsicConfig.Load(file[IntrinsicTag]).error)
    ensures IntrinsicTag in file && IntrinsicConfig.Load(file[IntrinsicTag]).Ok? && ExtrinsicTag !in file ==>
      r == Err("extrinsic tag is missing in config")
    ensures (&& IntrinsicTag in file && IntrinsicConfig.Load(file[IntrinsicTag]).Ok?
             && ExtrinsicTag in file && FirstProblem(file[ExtrinsicTag], ExtrinsicConfig.Fields).Some?) ==>
      r == Err(FirstProblem(file[ExtrinsicTag], ExtrinsicConfig.Fields).value)
    ensures (&& IntrinsicTag in file && IntrinsicConfig.Load(file[IntrinsicTag]).Ok?
             && ExtrinsicTag in file && FirstProblem(file[ExtrinsicTag], ExtrinsicConfig.Fields).None?
             && MetaTag !in file) ==>
      r == Err("meta tag is missing in config")
    ensures (&& IntrinsicTag in file && IntrinsicConfig.Load(file[IntrinsicTag]).Ok?
             && ExtrinsicTag in file && FirstProblem(file[ExtrinsicTag], ExtrinsicConfig.Fields).None?
             && MetaTag in file && MetaConfig.Load(file[MetaTag]).Err?) ==>
      r == Err(MetaConfig.Load(file[MetaTag]).error)
    ensures r.Ok? <==>
      && IntrinsicTag in file && IntrinsicConfig.Load(file[IntrinsicTag]).Ok?
      && ExtrinsicTag in file && FirstProblem(file[ExtrinsicTag], ExtrinsicConfig.Fields).None?
      && MetaTag in file && MetaConfig.Load(file[MetaTag]).Ok?
    ensures r.Ok? ==> r.value.intrinsics == IntrinsicConfig.Load(file[IntrinsicTag]).value
    ensures r.Ok? ==> r.value.extrinsics == ExtrinsicConfig.Stored(file[ExtrinsicTag])
    ensures r.Ok? ==> r.value.meta == MetaConfig.Load(file[MetaTag]).value
  {
    var intrinsicData :- Get(file, IntrinsicTag, "intrinsic tag is missing in config");
    var intrinsics :- IntrinsicConfig.Load(intrinsicData);
    var extrinsicData :- Get(file, ExtrinsicTag, "extrinsic tag is missing in config");
    var extrinsics :- ExtrinsicConfig.Load(extrinsicData);
    var metaData :- Get(file, MetaTag, "meta tag is missing in config");
    var meta :- MetaConfig.Load(metaData);
    r := Ok(Config(meta, intrinsics, extrinsics));
  }

  /** `Config::swap_axis`: y and z trade places and the new z is negated,
      turning the file's z-up coordinates into the viewer's y-up ones. */
  function SwapAxis(v: Vec3): (r: Vec3)
    ensures r.x == v.x && r.y == v.z && r.z == -v.y
  {
    Vec3(v.x, v.z, -v.y)
  }

  /** Swapping twice turns by half a revolution around x. */
  lemma SwapAxisTwice(v: Vec3)
    ensures SwapAxis(SwapAxis(v)) == Vec3(v.x, -v.y, -v.z)
  {
  }

  /** Swapping four times is the identity. */
  lemma SwapAxisFourTimes(v: Vec3)
    ensures SwapAxis(SwapAxis(SwapAxis(SwapAxis(v)))) == v
  {
  }

  /** The swap is a rotation: lengths and dot products are kept. */
  lemma SwapAxisKeepsDot(u: Vec3, v: Vec3)
    ensures SwapAxis(u).Dot(SwapAxis(v)) == u.Dot(v)
  {
  }
}
