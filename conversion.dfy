/** The last step of every sensor read: turning the leaf found at the sensor's
    path into the reported state, `float(value)` for the price and number
    sensors and `str(value)` for the text sensor, with a null leaf reported as
    no value. */
module Conversion {
  import opened Wrappers
  import opened JsonValue
  import PyText

  /** The parts of Python's `float()` and `str()` that depend on the
      interpreter's floating-point formatting and parsing, which the model takes
      as given: parsing a float literal out of a string, printing a float, and
      printing a list or dict. */
  datatype Runtime = Runtime(
    parseFloat: string -> Option<real>,
    floatRepr: real -> string,
    containerRepr: Json -> string)

  /** Why `float(value)` raised: TypeError for None, list and dict;
      ValueError for a string that is not a float literal; OverflowError for
      an int too large for a double. */
  datatype ConversionError = TypeError | ValueError | OverflowError

  /** The smallest magnitude an int must reach for `float()` to raise
      OverflowError: 2^1024 - 2^970, the midpoint between the largest finite
      IEEE 754 double (2^1024 - 2^971) and 2^1024. Round-half-to-even takes
      it, and everything above it, out of range. */
  const FloatOverflowBound: nat :=
    0xFFFFFFFFFFFFFC00_0000000000000000_0000000000000000_0000000000000000_0000000000000000_0000000000000000_0000000000000000_0000000000000000_0000000000000000_0000000000000000_0000000000000000_0000000000000000_0000000000000000_0000000000000000_0000000000000000_0000000000000000

  function Abs(i: int): nat
  {
    if i < 0 then -i else i
  }

  /** Python `float(value)` on a decoded JSON value. */
  function ToFloat(v: Json, rt: Runtime): (r: Result<real, ConversionError>)
    ensures r.Err? <==>
      || v.JNull? || v.JArray? || v.JObject?
      || (v.JString? && rt.parseFloat(v.s).None?)
      || (v.JInt? && Abs(v.i) >= FloatOverflowBound)
    ensures r == Err(ValueError) <==> v.JString? && rt.parseFloat(v.s).None?
    ensures r == Err(OverflowError) <==> v.JInt? && Abs(v.i) >= FloatOverflowBound
    ensures v.JBool? ==> r == Ok(if v.b then 1.0 else 0.0)
    ensures v.JInt? && Abs(v.i) < FloatOverflowBound ==> r == Ok(v.i as real)
    ensures v.JFloat? ==> r == Ok(v.x)
    ensures v.JString? && rt.parseFloat(v.s).Some? ==> r == Ok(rt.parseFloat(v.s).value)
  {
    match v
    case JNull => Err(TypeError)
    case JBool(b) => Ok(if b then 1.0 else 0.0)
    case JInt(i) => if Abs(i) >= FloatOverflowBound then Err(OverflowError) else Ok(i as real)
    case JFloat(x) => Ok(x)
    case JString(s) =>
      (match rt.parseFloat(s)
       case Some(x) => Ok(x)
       case None => Err(ValueError))
    case JArray(_) => Err(TypeError)
    case JObject(_) => Err(TypeError)
  }

  /** Python `str(value)` on a decoded JSON value. */
  function ToStr(v: Json, rt: Runtime): (r: string)
    ensures v.JString? ==> r == v.s
    ensures v.JInt? ==> PyText.IsCanonicalDecimal(r) && PyText.DecimalToInt(r) == v.i
    ensures v.JInt? ==> (r[0] == '-' <==> v.i < 0)
    ensures v.JBool? ==> r == (if v.b then "True" else "False")
  {
    match v
    case JNull => "None"
    case JBool(b) => if b then "True" else "False"
    case JInt(i) => PyText.IntDecimalRoundTrip(i); PyText.IntToDecimal(i)
    case JFloat(x) => rt.floatRepr(x)
    case JString(s) => s
    case JArray(_) => rt.containerRepr(v)
    case JObject(_) => rt.containerRepr(v)
  }

  /** `str()` of an int is exactly its canonical numeral: any numeral without
      a leading zero or a minus sign before zero that parses to `i` is the
      text `str(i)` gives. */
  lemma ToStrIntCanonical(i: int, numeral: string, rt: Runtime)
    requires PyText.IsCanonicalDecimal(numeral) && PyText.DecimalToInt(numeral) == i
    ensures ToStr(JInt(i), rt) == numeral
  {
    PyText.CanonicalDecimalUnique(ToStr(JInt(i), rt), numeral);
  }

  /** The three sensor classes; they differ only in how the leaf is converted. */
  datatype SensorKind = PriceSensor | TextSensor | NumberSensor

  /** What `native_value` hands back: None, a float, a string, or the
      exception `float()` raised. */
  datatype Reading =
    | NoValue
    | NumberValue(x: real)
    | TextValue(text: string)
    | ConversionFailed(error: ConversionError)

  /** `float(value) if value is not None else None`, or the `str` variant. */
  function ConvertLeaf(kind: SensorKind, leaf: Json, rt: Runtime): (r: Reading)
    ensures r == NoValue <==> leaf.JNull?
    ensures kind == TextSensor ==> r.NoValue? || r.TextValue?
    ensures kind == TextSensor && leaf.JString? ==> r == TextValue(leaf.s)
    ensures kind != TextSensor ==> r.NoValue? || r.NumberValue? || r.ConversionFailed?
    ensures kind != TextSensor && leaf.JInt? && Abs(leaf.i) < FloatOverflowBound ==>
      r == NumberValue(leaf.i as real)
    ensures kind != TextSensor && leaf.JFloat? ==> r == NumberValue(leaf.x)
    ensures kind != TextSensor ==> (r.ConversionFailed? <==> ToFloat(leaf, rt).Err? && !leaf.JNull?)
    ensures kind == TextSensor && !leaf.JNull? ==> r == TextValue(ToStr(leaf, rt))
    ensures kind != TextSensor && !leaf.JNull? ==>
      r == (match ToFloat(leaf, rt)
            case Ok(x) => NumberValue(x)
            case Err(e) => ConversionFailed(e))
  {
    if leaf.JNull? then NoValue
    else if kind == TextSensor then TextValue(ToStr(leaf, rt))
    else
      match ToFloat(leaf, rt)
      case Ok(x) => NumberValue(x)
      case Err(e) => ConversionFailed(e)
  }
}
