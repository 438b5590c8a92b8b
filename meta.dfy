// The meta section of a parameters file: descriptive strings, the render
// seed and the disparity and depth ranges of the scene.
module MetaConfig {
  import opened Wrappers
  import opened ConfigValues

  datatype Meta = Meta(
    sceneName: string, category: string, date: string, version: string,
    authors: seq<string>, contact: string, cyclesSeed: U64,
    dispMin: real, dispMax: real, frustumDispMin: real, frustumDispMax: real,
    depthMaxScale: real)

  // ---------------------------------------------------------------------
  // `str::split(",")` and `str::trim()`

  function CommaCount(s: string): nat {
    if |s| == 0 then 0 else (if s[0] == ',' then 1 else 0) + CommaCount(s[1..])
  }

  /** The pieces between commas, empty pieces included. */
  function Split(s: string): (r: seq<string>)
    ensures |r| >= 1
    ensures forall i :: 0 <= i < |r| ==> ',' !in r[i]
  {
    if |s| == 0 then [""]
    else
      var rest := Split(s[1..]);
      if s[0] == ',' then [""] + rest
      else
        assert ',' !in rest[0];
        [[s[0]] + rest[0]] + rest[1..]
  }

  /** The pieces glued back together with commas. */
  function Join(pieces: seq<string>): string
    requires |pieces| >= 1
  {
    if |pieces| == 1 then pieces[0] else pieces[0] + "," + Join(pieces[1..])
  }

  /** There is one piece more than there are commas. */
  lemma {:induction false} SplitCount(s: string)
    ensures |Split(s)| == CommaCount(s) + 1
  {
    if |s| > 0 {
      SplitCount(s[1..]);
    }
  }

  /** Splitting loses nothing: joining the pieces restores the input. */
  lemma {:induction false} SplitJoin(s: string)
    ensures Join(Split(s)) == s
  {
    if |s| > 0 {
      SplitJoin(s[1..]);
      var rest := Split(s[1..]);
      if s[0] == ',' {
        assert Split(s) == [""] + rest;
        assert (Split(s))[1..] == rest;
        assert s == [s[0]] + s[1..];
      } else {
        var p := Split(s);
        assert p == [[s[0]] + rest[0]] + rest[1..];
        if |rest| == 1 {
          assert s == [s[0]] + s[1..];
        } else {
          assert p[1..] == rest[1..];
          assert Join(rest) == rest[0] + "," + Join(rest[1..]);
          assert s == [s[0]] + s[1..];
        }
      }
    }
  }

  /** `char::is_whitespace`: the Unicode White_Space characters. */
  predicate IsWhitespace(c: char) {
    c == '\t' || c == '\n' || c == '\U{000B}' || c == '\U{000C}' || c == '\r' || c == ' ' ||
    c == '\U{0085}' || c == '\U{00A0}' || c == '\U{1680}' || ('\U{2000}' <= c <= '\U{200A}') ||
    c == '\U{2028}' || c == '\U{2029}' || c == '\U{202F}' || c == '\U{205F}' || c == '\U{3000}'
  }

  function TrimStart(s: string): (r: string)
    ensures |r| <= |s| && r == s[|s| - |r|..]
    ensures |r| > 0 ==> !IsWhitespace(r[0])
    ensures forall i :: 0 <= i < |s| - |r| ==> IsWhitespace(s[i])
  {
    if |s| > 0 && IsWhitespace(s[0]) then TrimStart(s[1..]) else s
  }

  function TrimEnd(s: string): (r: string)
    ensures |r| <= |s| && r == s[..|r|]
    ensures |r| > 0 ==> !IsWhitespace(r[|r| - 1])
    ensures forall i :: |r| <= i < |s| ==> IsWhitespace(s[i])
  {
    if |s| > 0 && IsWhitespace(s[|s| - 1]) then TrimEnd(s[..|s| - 1]) else s
  }

  /** Number of leading whitespace characters. */
  function LeadingWhitespace(s: string): nat {
    |s| - |TrimStart(s)|
  }

  /** `str::trim()`: the input without its leading and trailing whitespace;
      what is cut off on either side is whitespace only. */
  function Trim(s: string): (r: string)
    ensures |r| > 0 ==> !IsWhitespace(r[0]) && !IsWhitespace(r[|r| - 1])
    ensures LeadingWhitespace(s) + |r| <= |s|
    ensures r == s[LeadingWhitespace(s)..LeadingWhitespace(s) + |r|]
    ensures forall i :: 0 <= i < LeadingWhitespace(s) ==> IsWhitespace(s[i])
    ensures forall i :: LeadingWhitespace(s) + |r| <= i < |s| ==> IsWhitespace(s[i])
  {
    var t := TrimStart(s);
    var r := TrimEnd(t);
    var i := |s| - |t|;
    assert r == s[i..i + |r|];
    assert forall k :: i + |r| <= k < |s| ==> s[k] == t[k - i];
    r
  }

  /** Trimming what is already trimmed changes nothing. */
  lemma TrimIdempotent(s: string)
    ensures Trim(Trim(s)) == Trim(s)
  {
  }

  /** The authors entry: comma-separated names, each trimmed. */
  function Authors(text: string): (r: seq<string>)
    ensures |r| == CommaCount(text) + 1 && |r| == |Split(text)|
    ensures forall i :: 0 <= i < |r| ==> |r[i]| > 0 ==> !IsWhitespace(r[i][0]) && !IsWhitespace(r[i][|r[i]| - 1])
    ensures forall i :: 0 <= i < |r| ==> r[i] == Trim(Split(text)[i])
  {
    SplitCount(text);
    var pieces := Split(text);
    seq(|pieces|, i requires 0 <= i < |pieces| => Trim(pieces[i]))
  }

  // ---------------------------------------------------------------------
  // Loading

  const AuthorsField := Field("authors", "no authors present", TextKind)
  const Scene := Field("scene", "scene not present", TextKind)
  const Category := Field("category", "category not present", TextKind)
  const Date := Field("date", "date not present", TextKind)
  const Version := Field("version", "version not present", TextKind)
  const Contact := Field("contact", "contact not present", TextKind)
  const CyclesSeed := Field("cycles_seed", "cycles seed not present", U64Kind)
  const DispMin := Field("disp_min", "disp min not present", F32Kind)
  const DispMax := Field("disp_max", "disp max not present", F32Kind)
  const FrustumDispMin := Field("frustum_disp_min", "frustum disp min not present", F32Kind)
  const FrustumDispMax := Field("frustum_disp_max", "frustum disp max not present", F32Kind)
  const DepthMapScale := Field("depth_map_scale", "depth max scale not present", F32Kind)

  /** The required keys in the order `load` reads them: authors first. */
  const Fields: seq<Field> := [
    AuthorsField, Scene, Category, Date, Version, Contact, CyclesSeed,
    DispMin, DispMax, FrustumDispMin, FrustumDispMax, DepthMapScale]

  /** `Meta::load`. */
  function Load(data: map<string, Value>): (r: Result<Meta, string>)
    ensures r.Ok? <==> FirstProblem(data, Fields).None?
    ensures r.Err? ==> FirstProblem(data, Fields) == Some(r.error)
    ensures r.Ok? ==> r.value == Meta(
      TextOf(data, Scene.key), TextOf(data, Category.key), TextOf(data, Date.key), TextOf(data, Version.key),
      Authors(TextOf(data, AuthorsField.key)), TextOf(data, Contact.key), U64Of(data, CyclesSeed.key),
      RealOf(data, DispMin.key), RealOf(data, DispMax.key), RealOf(data, FrustumDispMin.key),
      RealOf(data, FrustumDispMax.key), RealOf(data, DepthMapScale.key))
  {
    assert Fields[..0] == [];
    var authorString :- Require(data, Fields, 0);
    var authors := Authors(authorString.s);
    var scene :- Require(data, Fields, 1);
    var category :- Require(data, Fields, 2);
    var date :- Require(data, Fields, 3);
    var version :- Require(data, Fields, 4);
    var contact :- Require(data, Fields, 5);
    var cyclesSeed :- Require(data, Fields, 6);
    var dispMin :- Require(data, Fields, 7);
    var dispMax :- Require(data, Fields, 8);
    var frustumDispMin :- Require(data, Fields, 9);
    var frustumDispMax :- Require(data, Fields, 10);
    var depthMapScale :- Require(data, Fields, 11);
    assert Fields[..12] == Fields;
    Ok(Meta(scene.s, category.s, date.s, version.s, authors, contact.s, AsU64(cyclesSeed),
            AsReal(dispMin), AsReal(dispMax), AsReal(frustumDispMin), AsReal(frustumDispMax), AsReal(depthMapScale)))
  }

  /** A missing authors entry is the error whatever else is missing. */
  lemma MissingAuthorsReportedFirst(data: map<string, Value>)
    requires AuthorsField.key !in data
    ensures Load(data) == Err("no authors present")
  {
    assert !Available(data, Fields[0]);
    FirstProblemIsFirstUnavailable(data, Fields, 0);
  }
}
