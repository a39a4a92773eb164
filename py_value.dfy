/**
 * The Python values that flow through the configuration helpers of utils.py,
 * and the builtin `int(x)` that `make_model` applies to the `lookback` keyword.
 */
module PyValue {
  import opened Results
  import opened Decimal

  /** A dictionary key: the configuration dictionaries use strings and, once, the integer 1. */
  datatype Key = Name(name: string) | Index(index: int)

  /**
   * A Python value. Floats appear only as literals that are stored and compared,
   * so they are exact reals here.
   */
  datatype Value =
    | VNone
    | VBool(b: bool)
    | VInt(i: int)
    | VFloat(x: real)
    | VStr(s: string)
    | VList(items: seq<Value>)
    | VTuple(elems: seq<Value>)
    | VDict(entries: map<Key, Value>)

  function Abs(x: real): real {
    if x < 0.0 then -x else x
  }

  /** `int(x)` for a float: the integer part, truncated toward zero. */
  function Truncate(x: real): (r: int)
    ensures 0.0 <= Abs(x) - Abs(r as real) < 1.0
    ensures (x < 0.0 ==> r <= 0) && (x >= 0.0 ==> r >= 0)
  {
    if x >= 0.0 then x.Floor else -((-x).Floor)
  }

  /** `int(s)` for a string: an optional sign followed by one or more decimal digits. */
  function ParseInt(s: string): Option<int> {
    var negative := |s| > 0 && s[0] == '-';
    var digits := if |s| > 0 && (s[0] == '-' || s[0] == '+') then s[1..] else s;
    if |digits| > 0 && AllDigits(digits) then
      var magnitude: int := DigitsValue(digits);
      Some(if negative then -magnitude else magnitude)
    else
      None
  }

  /** `int(x)`, or the exception it raises. */
  function IntOf(v: Value): (r: Result<int>)
    ensures v.VInt? ==> r == Success(v.i)
    ensures v.VFloat? ==> r == Success(Truncate(v.x))
    ensures v.VBool? ==> r == Success(if v.b then 1 else 0)
    ensures v.VStr? ==> (r.Success? <==> ParseInt(v.s).Some?)
    ensures v.VStr? && r.Success? ==> ParseInt(v.s) == Some(r.value)
    ensures v.VStr? && r.Failure? ==> r.error == ValueError("invalid literal for int() with base 10: '" + v.s + "'")
    ensures r.Failure? && !v.VStr? ==> r.error == TypeError
    ensures (v.VNone? || v.VList? || v.VTuple? || v.VDict?) ==> r == Failure(TypeError)
  {
    match v
    case VInt(i) => Success(i)
    case VBool(b) => Success(if b then 1 else 0)
    case VFloat(x) => Success(Truncate(x))
    case VStr(s) =>
      (match ParseInt(s)
       case Some(n) => Success(n)
       case None => Failure(ValueError("invalid literal for int() with base 10: '" + s + "'")))
    case _ => Failure(TypeError)
  }

  /** `int(str(n))` and `int("-" + str(n))` give back `n` and `-n`. */
  lemma ParseIntRoundTrip(n: nat)
    ensures ParseInt(NatToString(n)) == Some(n)
    ensures ParseInt("-" + NatToString(n)) == Some(-(n as int))
    ensures ParseInt("+" + NatToString(n)) == Some(n)
  {
    NatToStringRoundTrip(n);
    var s := NatToString(n);
    assert IsDigit(s[0]);
    assert ("-" + s)[1..] == s;
    assert ("+" + s)[1..] == s;
  }
}
