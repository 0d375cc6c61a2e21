/** The value a plug-in talker holds (plugin/src/data.rs). A new value is
    read from text according to the variant of the current one (`birth`).
    An `f32` is kept as the literal it was read from: Rust's own float
    printing is not modelled, so `ToText` of a float gives that literal. */
module PluginData {
  import opened Wrappers
  import opened Numeric

  datatype Data =
    | Nil
    | Int(i: int)
    | Float(literal: string)
    | String(s: string)
    | Text(t: string)
    | File(f: string)

  /** The values the source can hold: an `i64`, and a float read by
      `f32::from_str`. */
  predicate WellFormed(d: Data) {
    match d
    case Int(i) => I64_MIN <= i <= I64_MAX
    case Float(lit) => IsF32Literal(lit)
    case _ => true
  }

  const TYPE_INCOMPATIBLE: string := "Value type is incompatible with the expected type"
  const STRING_INCOMPATIBLE: string := "Value string is incompatible with the expected type"

  /** `type_str`: the variant's name. */
  function TypeStr(d: Data): (r: string)
    ensures r in {"Nil", "Int", "Float", "String", "Text", "File"}
    ensures d.Nil? <==> r == "Nil"
    ensures d.Int? <==> r == "Int"
    ensures d.Float? <==> r == "Float"
    ensures d.String? <==> r == "String"
    ensures d.Text? <==> r == "Text"
    ensures d.File? <==> r == "File"
  {
    match d
    case Nil => "Nil"
    case Int(_) => "Int"
    case Float(_) => "Float"
    case String(_) => "String"
    case Text(_) => "Text"
    case File(_) => "File"
  }

  /** `to_i`: the integer of an `Int`, else the incompatibility error. */
  function ToI(d: Data): (r: Result<int>)
    ensures r.Ok? <==> d.Int?
    ensures r.Ok? ==> r.value == d.i
    ensures r.Err? ==> r.msg == TYPE_INCOMPATIBLE
  {
    if d.Int? then Ok(d.i) else Err(TYPE_INCOMPATIBLE)
  }

  function ToF(d: Data): (r: Result<string>)
    ensures r.Ok? <==> d.Float?
    ensures r.Ok? ==> r.value == d.literal
    ensures r.Err? ==> r.msg == TYPE_INCOMPATIBLE
  {
    if d.Float? then Ok(d.literal) else Err(TYPE_INCOMPATIBLE)
  }

  function ToS(d: Data): (r: Result<string>)
    ensures r.Ok? <==> d.String?
    ensures r.Ok? ==> r.value == d.s
    ensures r.Err? ==> r.msg == TYPE_INCOMPATIBLE
  {
    if d.String? then Ok(d.s) else Err(TYPE_INCOMPATIBLE)
  }

  function ToT(d: Data): (r: Result<string>)
    ensures r.Ok? <==> d.Text?
    ensures r.Ok? ==> r.value == d.t
    ensures r.Err? ==> r.msg == TYPE_INCOMPATIBLE
  {
    if d.Text? then Ok(d.t) else Err(TYPE_INCOMPATIBLE)
  }

  function ToFl(d: Data): (r: Result<string>)
    ensures r.Ok? <==> d.File?
    ensures r.Ok? ==> r.value == d.f
    ensures r.Err? ==> r.msg == TYPE_INCOMPATIBLE
  {
    if d.File? then Ok(d.f) else Err(TYPE_INCOMPATIBLE)
  }

  /** `to_string`: the value as text; `Nil` is the empty text. */
  function ToText(d: Data): (r: string)
    ensures d.Nil? ==> r == ""
    ensures d.Int? ==> r == FormatInt(d.i)
    ensures d.String? || d.Text? || d.File? ==> r == (if d.String? then d.s else if d.Text? then d.t else d.f)
  {
    match d
    case Nil => ""
    case Int(i) => FormatInt(i)
    case Float(lit) => lit
    case String(s) => s
    case Text(t) => t
    case File(f) => f
  }

  /** `birth`: a value of the same variant read from `s`. An `Int` reads
      an `i64`, a `Float` an `f32`, the three texts take `s` as it is, and
      `Nil` stays `Nil` whatever `s` is. */
  function Birth(d: Data, s: string): (r: Result<Data>)
    ensures r.Ok? ==> TypeStr(r.value) == TypeStr(d) && WellFormed(r.value)
    ensures r.Err? <==> (d.Int? && ParseI64(s).None?) || (d.Float? && !IsF32Literal(s))
    ensures r.Err? ==> r.msg == STRING_INCOMPATIBLE
    ensures r.Ok? && (d.String? || d.Text? || d.File?) ==> ToText(r.value) == s
  {
    match d
    case Nil => Ok(Nil)
    case Int(_) =>
      var p := ParseI64(s);
      if p.Some? then Ok(Int(p.value)) else Err(STRING_INCOMPATIBLE)
    case Float(_) => if IsF32Literal(s) then Ok(Float(s)) else Err(STRING_INCOMPATIBLE)
    case String(_) => Ok(String(s))
    case Text(_) => Ok(Text(s))
    case File(_) => Ok(File(s))
  }

  /** Writing a value and reading it back with `birth` gives the value. */
  lemma {:induction false} BirthOfToText(d: Data)
    requires WellFormed(d)
    ensures Birth(d, ToText(d)) == Ok(d)
  {
    if d.Int? {
      ParseFormatInt(d.i, I64_MIN, I64_MAX);
    }
  }

  /** Any `i64` written in decimal is read back by an `Int`. */
  lemma {:induction false} BirthOfIntText(d: Data, i: int)
    requires d.Int? && I64_MIN <= i <= I64_MAX
    ensures Birth(d, FormatInt(i)) == Ok(Int(i))
  {
    ParseFormatInt(i, I64_MIN, I64_MAX);
  }
}
