/** The example validators plugin (`ckanext/example_ivalidators/plugin.py`):
    three validators and the table that registers them. */
module ExampleValidators {
  import opened PyValue

  /** The exceptions the validators raise. */
  datatype ValidatorError =
    | Invalid(message: string)        // ckan.plugins.toolkit.Invalid
    | TypeError(message: string)      // unary minus on a value that has none
    | UnicodeDecodeError              // the cp1252 fallback could not decode either

  /** The codecs `unicode_please` relies on, as partial decoders, and `str()`
      of a value that is neither text nor bytes. */
  datatype Codecs = Codecs(
    utf8: seq<bv8> -> Option<string>,
    cp1252: seq<bv8> -> Option<string>,
    str: Value -> string)

  /** `equals_fortytwo`: the value passes unchanged when it equals 42. */
  function EqualsFortyTwo(value: Value): (r: Result<Value, ValidatorError>)
    ensures r.Ok? <==> value == Int(42)
    ensures r.Ok? ==> r.value == value
    ensures r.Err? ==> r.error == Invalid("not 42")
  {
    if value != Int(42) then Err(Invalid("not 42")) else Ok(value)
  }

  /** `negate`: unary minus, defined on integers and on booleans (as 0 and 1). */
  function Negate(value: Value): (r: Result<Value, ValidatorError>)
    ensures value.Int? ==> r == Ok(Int(-value.i))
    ensures value.Bool? ==> r == Ok(Int(if value.b then -1 else 0))
    ensures !value.Int? && !value.Bool? ==> r.Err? && r.error.TypeError?
  {
    match value
    case Int(i) => Ok(Int(-i))
    case Bool(b) => Ok(Int(if b then -1 else 0))
    case _ => Err(TypeError("bad operand type for unary -"))
  }

  /** Negating a number twice gives it back. */
  lemma NegateInvolution(value: Value)
    requires value.Int?
    ensures Negate(value).Ok? && Negate(Negate(value).value) == Ok(value)
  {
  }

  /** `unicode_please`: bytes are decoded as UTF-8, and only when that fails
      as cp1252; any other value is converted with `str()`, which leaves text
      as it is. */
  function UnicodePlease(codecs: Codecs, value: Value): (r: Result<string, ValidatorError>)
    ensures value.Str? ==> r == Ok(value.s)
    ensures value.Bytes? && codecs.utf8(value.bytes).Some? ==> r == Ok(codecs.utf8(value.bytes).value)
    ensures value.Bytes? && codecs.utf8(value.bytes).None? ==>
      r == if codecs.cp1252(value.bytes).Some? then Ok(codecs.cp1252(value.bytes).value) else Err(UnicodeDecodeError)
    ensures !value.Bytes? ==> r.Ok?
  {
    match value
    case Bytes(b) =>
      (match codecs.utf8(b)
       case Some(text) => Ok(text)
       case None =>
         match codecs.cp1252(b)
         case Some(text) => Ok(text)
         case None => Err(UnicodeDecodeError))
    case Str(s) => Ok(s)
    case _ => Ok(codecs.str(value))
  }

  /** Feeding `unicode_please` its own result changes nothing. */
  lemma UnicodePleaseIdempotent(codecs: Codecs, value: Value)
    requires UnicodePlease(codecs, value).Ok?
    ensures UnicodePlease(codecs, Str(UnicodePlease(codecs, value).value)) == UnicodePlease(codecs, value)
  {
  }

  /** The validators the plugin can hand out. */
  datatype Validator = EqualsFortyTwoValidator | NegateValidator | UnicodePleaseValidator

  /** `get_validators`. */
  function GetValidators(): (r: map<string, Validator>)
    ensures r.Keys == {"equals_fortytwo", "negate", "unicode_only"}
    ensures r["equals_fortytwo"] == EqualsFortyTwoValidator && r["negate"] == NegateValidator
    ensures r["unicode_only"] == UnicodePleaseValidator
  {
    map["equals_fortytwo" := EqualsFortyTwoValidator,
        "negate" := NegateValidator,
        "unicode_only" := UnicodePleaseValidator]
  }
}
