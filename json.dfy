/**
 * Decoded JSON values as the service sees them after `json.loads`, with the
 * Python behaviour the repair and normalisation steps rely on: truthiness,
 * `int(...)` and `str(...)`.
 */
module Json {
  import opened Wrappers
  import opened Text

  /** Python floats as `json.loads` yields them (it accepts `Infinity` and `NaN`). */
  datatype Float = Finite(value: real) | PosInf | NegInf | NaN

  datatype Value =
    | JNull
    | JBool(b: bool)
    | JInt(i: int)
    | JFloat(f: Float)
    | JStr(s: string)
    | JArr(items: seq<Value>)
    | JObj(fields: map<string, Value>)

  /** A Python dict decoded from a JSON object. */
  type Dict = map<string, Value>

  /** The exceptions the modelled steps can raise. */
  datatype PyError = TypeError | ValueError | OverflowError | ValidationError

  /** `dict.get(key, default)` */
  function Get(d: Dict, key: string, default: Value): (r: Value)
    ensures key in d ==> r == d[key]
    ensures key !in d ==> r == default
  {
    if key in d then d[key] else default
  }

  /** Python truthiness: None, False, zero, the empty string and empty containers are false. */
  predicate Truthy(v: Value) {
    match v
    case JNull => false
    case JBool(b) => b
    case JInt(i) => i != 0
    case JFloat(f) => !(f.Finite? && f.value == 0.0)
    case JStr(s) => s != ""
    case JArr(items) => items != []
    case JObj(fields) => fields != map[]
  }

  /** `int(x)` for a finite float: truncation toward zero. */
  function Truncate(x: real): (r: int)
    ensures x >= 0.0 ==> r as real <= x < r as real + 1.0
    ensures x < 0.0 ==> r as real - 1.0 < x <= r as real
  {
    if x >= 0.0 then x.Floor else -((-x).Floor)
  }

  /**
   * Python's `int(v)` on a decoded value: booleans are 0 or 1, floats truncate
   * (infinities raise OverflowError, NaN ValueError), strings must spell an
   * integer of at most `MaxStrDigits` digits (ValueError otherwise), and None,
   * lists and dicts raise TypeError.
   */
  function PyInt(v: Value): (r: Result<int, PyError>)
    ensures v.JInt? ==> r == Ok(v.i)
    ensures r.Err? && r.error == OverflowError <==> v.JFloat? && (v.f.PosInf? || v.f.NegInf?)
    ensures (v.JNull? || v.JArr? || v.JObj?) <==> r.Err? && r.error == TypeError
  {
    match v
    case JBool(b) => Ok(if b then 1 else 0)
    case JInt(i) => Ok(i)
    case JFloat(f) =>
      (match f
       case Finite(x) => Ok(Truncate(x))
       case PosInf => Err(OverflowError)
       case NegInf => Err(OverflowError)
       case NaN => Err(ValueError))
    case JStr(s) =>
      (match ParseInt(s)
       case Some(i) => Ok(i)
       case None => Err(ValueError))
    case _ => Err(TypeError)
  }

  /** A string that spells an integer in the usual way converts back to it, unless it has more than `MaxStrDigits` digits. */
  lemma PyIntOfIntStr(i: int)
    ensures PyInt(JStr(IntStr(i)))
            == if |NatStr(if i < 0 then -i else i)| <= MaxStrDigits then Ok(i) else Err(ValueError)
  {
    IntStrRoundTrip(i);
  }

  /** `int()` of a string of digits: the number it denotes up to `MaxStrDigits` digits, ValueError beyond. */
  lemma PyIntDigits(d: string)
    requires d != [] && AllDigits(d)
    ensures PyInt(JStr(d)) == if |d| <= MaxStrDigits then Ok(DigitsValue(d) as int) else Err(ValueError)
  {
    StripIdentity(d);
  }

  /**
   * Python's `str(v)`: exact for strings, integers, booleans and None; floats,
   * lists and dicts are rendered by `repr`, which the model takes as given.
   * The digits of an integer are written out whatever their number.
   */
  function PyStr(v: Value, repr: Value -> string): (r: string)
    ensures v.JStr? ==> r == v.s
    ensures v.JInt? && |NatStr(if v.i < 0 then -v.i else v.i)| <= MaxStrDigits ==> ParseInt(r) == Some(v.i)
  {
    match v
    case JStr(s) => s
    case JInt(i) => IntStrRoundTrip(i); IntStr(i)
    case JBool(b) => if b then "True" else "False"
    case JNull => "None"
    case _ => repr(v)
  }
}
