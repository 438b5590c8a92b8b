// The typed lookups every section loader of the parameters file performs:
// a key that is absent is reported with the section's own message, and a
// value of the wrong kind with the conversion's error.
module ConfigValues {
  import opened Wrappers
  import opened Numeric

  type U64 = x: int | 0 <= x < 0x1_0000_0000_0000_0000

  /** A parsed value of the parameters file. */
  datatype Value = IntValue(i: int) | FloatValue(f: real) | TextValue(s: string)

  /** The Rust type a field is converted into. */
  datatype Kind = U32Kind | U64Kind | F32Kind | TextKind

  const ConversionError: string := "value has the wrong type"

  predicate Converts(v: Value, kind: Kind) {
    match kind
    case U32Kind => v.IntValue? && 0 <= v.i < 0x1_0000_0000
    case U64Kind => v.IntValue? && 0 <= v.i < 0x1_0000_0000_0000_0000
    case F32Kind => v.FloatValue? || v.IntValue?
    case TextKind => v.TextValue?
  }

  function ToU32(v: Value): (r: Result<U32, string>)
    ensures r.Ok? <==> Converts(v, U32Kind)
    ensures r.Ok? ==> r.value == v.i
    ensures r.Err? ==> r.error == ConversionError
  {
    if v.IntValue? && 0 <= v.i < 0x1_0000_0000 then Ok(v.i) else Err(ConversionError)
  }

  function ToU64(v: Value): (r: Result<U64, string>)
    ensures r.Ok? <==> Converts(v, U64Kind)
    ensures r.Ok? ==> r.value == v.i
    ensures r.Err? ==> r.error == ConversionError
  {
    if v.IntValue? && 0 <= v.i < 0x1_0000_0000_0000_0000 then Ok(v.i) else Err(ConversionError)
  }

  /** Floats accept integer literals too. */
  function AsReal(v: Value): real {
    match v
    case FloatValue(f) => f
    case IntValue(i) => i as real
    case TextValue(_) => 0.0
  }

  /** The `u32` a value converts to, 0 when it does not. */
  function AsU32(v: Value): U32 {
    if Converts(v, U32Kind) then v.i else 0
  }

  /** The `u64` a value converts to, 0 when it does not. */
  function AsU64(v: Value): U64 {
    if Converts(v, U64Kind) then v.i else 0
  }

  function ToF32(v: Value): (r: Result<real, string>)
    ensures r.Ok? <==> Converts(v, F32Kind)
    ensures r.Ok? ==> r.value == AsReal(v)
    ensures r.Err? ==> r.error == ConversionError
  {
    match v
    case FloatValue(f) => Ok(f)
    case IntValue(i) => Ok(i as real)
    case TextValue(_) => Err(ConversionError)
  }

  function ToText(v: Value): (r: Result<string, string>)
    ensures r.Ok? <==> Converts(v, TextKind)
    ensures r.Ok? ==> r.value == v.s
    ensures r.Err? ==> r.error == ConversionError
  {
    if v.TextValue? then Ok(v.s) else Err(ConversionError)
  }

  /** `data.get(key).ok_or(missing)`. */
  function Get<V>(data: map<string, V>, key: string, missing: string): (r: Result<V, string>)
    ensures r.Ok? <==> key in data
    ensures r.Ok? ==> r.value == data[key]
    ensures r.Err? ==> r.error == missing
  {
    if key in data then Ok(data[key]) else Err(missing)
  }

  /** One required field: its key, the message when it is absent, its type. */
  datatype Field = Field(key: string, missing: string, kind: Kind)

  predicate Available(data: map<string, Value>, f: Field) {
    f.key in data && Converts(data[f.key], f.kind)
  }

  /** The error a loader reports for a field that is not available. */
  function ProblemOf(data: map<string, Value>, f: Field): string {
    if f.key !in data then f.missing else ConversionError
  }

  /** The `u32` stored under `key`, 0 when there is none. */
  function U32Of(data: map<string, Value>, key: string): U32 {
    if key in data then AsU32(data[key]) else 0
  }

  /** The `u64` stored under `key`, 0 when there is none. */
  function U64Of(data: map<string, Value>, key: string): U64 {
    if key in data then AsU64(data[key]) else 0
  }

  /** The float stored under `key`, 0.0 when there is none. */
  function RealOf(data: map<string, Value>, key: string): real {
    if key in data then AsReal(data[key]) else 0.0
  }

  /** The text stored under `key`, empty when there is none. */
  function TextOf(data: map<string, Value>, key: string): string {
    if key in data && data[key].TextValue? then data[key].s else ""
  }

  /** `fields[k]` is the first field of the list that is not available. */
  predicate FirstUnavailable(data: map<string, Value>, fields: seq<Field>, k: int) {
    0 <= k < |fields| && !Available(data, fields[k]) &&
    forall j :: 0 <= j < k ==> Available(data, fields[j])
  }

  /** Reference definition of the error of a loader that reads `fields` in
      order and stops at the first problem. */
  function FirstProblem(data: map<string, Value>, fields: seq<Field>): (r: Option<string>)
    ensures r.None? <==> forall j :: 0 <= j < |fields| ==> Available(data, fields[j])
    ensures r.Some? ==> exists k :: FirstUnavailable(data, fields, k) && r.value == ProblemOf(data, fields[k])
  {
    if |fields| == 0 then None
    else if !Available(data, fields[0]) then
      assert FirstUnavailable(data, fields, 0);
      Some(ProblemOf(data, fields[0]))
    else
      var rest := FirstProblem(data, fields[1..]);
      if rest.Some? then
        var k :| FirstUnavailable(data, fields[1..], k) && rest.value == ProblemOf(data, fields[1..][k]);
        assert FirstUnavailable(data, fields, k + 1);
        rest
      else
        rest
  }

  /** There is only one first unavailable field. */
  lemma FirstUnavailableUnique(data: map<string, Value>, fields: seq<Field>, k: int, m: int)
    requires FirstUnavailable(data, fields, k) && FirstUnavailable(data, fields, m)
    ensures k == m
  {
  }

  /** The field after a clean prefix either extends the clean prefix or is
      the first problem of the whole list. */
  lemma FirstProblemOfPrefix(data: map<string, Value>, fields: seq<Field>, i: int)
    requires 0 <= i < |fields| && FirstProblem(data, fields[..i]).None?
    ensures Available(data, fields[i]) ==> FirstProblem(data, fields[..i + 1]).None?
    ensures !Available(data, fields[i]) ==> FirstProblem(data, fields) == Some(ProblemOf(data, fields[i]))
  {
    assert forall j :: 0 <= j < i ==> fields[..i][j] == fields[j];
    if Available(data, fields[i]) {
      assert forall j :: 0 <= j < i + 1 ==> fields[..i + 1][j] == fields[j];
    } else {
      assert FirstUnavailable(data, fields, i);
      var r := FirstProblem(data, fields);
      var k :| FirstUnavailable(data, fields, k) && r.value == ProblemOf(data, fields[k]);
      FirstUnavailableUnique(data, fields, k, i);
    }
  }

  /** Whatever field is the first unavailable one, its problem is the one
      reported. */
  lemma FirstProblemIsFirstUnavailable(data: map<string, Value>, fields: seq<Field>, k: int)
    requires FirstUnavailable(data, fields, k)
    ensures FirstProblem(data, fields) == Some(ProblemOf(data, fields[k]))
  {
    var r := FirstProblem(data, fields);
    var m :| FirstUnavailable(data, fields, m) && r.value == ProblemOf(data, fields[m]);
    FirstUnavailableUnique(data, fields, k, m);
  }

  /** `data.get(key).ok_or(missing)?.to_value()?` for the i-th field of a
      loader whose earlier fields were all read successfully. */
  function Require(data: map<string, Value>, fields: seq<Field>, i: int): (r: Result<Value, string>)
    requires 0 <= i < |fields| && FirstProblem(data, fields[..i]).None?
    ensures r.Ok? <==> Available(data, fields[i])
    ensures r.Ok? ==> fields[i].key in data && r.value == data[fields[i].key] && FirstProblem(data, fields[..i + 1]).None?
    ensures r.Err? ==> r.error == ProblemOf(data, fields[i]) && FirstProblem(data, fields) == Some(r.error)
  {
    FirstProblemOfPrefix(data, fields, i);
    var v :- Get(data, fields[i].key, fields[i].missing);
    if Converts(v, fields[i].kind) then Ok(v) else Err(ConversionError)
  }
}
