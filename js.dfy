/** JavaScript values as the client script sees them after `response.json()`,
    with the handful of language rules the script relies on: truthiness,
    `a || b`, numeric coercion in comparisons and ASCII `toUpperCase`. */
module Js {

  datatype Option<+T> = None | Some(value: T)

  /** A decoded JSON value, plus `undefined` for a property that is absent.
      JSON numbers are finite, so `Num` never holds NaN. */
  datatype Value = Undefined | Null | Bool(b: bool) | Num(x: real) | Str(s: string)

  /** ToBoolean: the falsy values are undefined, null, false, 0 and "". */
  predicate Truthy(v: Value) {
    match v
    case Undefined => false
    case Null => false
    case Bool(b) => b
    case Num(x) => x != 0.0
    case Str(s) => s != ""
  }

  /** The JavaScript expression `a || b`. */
  function Or(a: Value, b: Value): Value {
    if Truthy(a) then a else b
  }

  /** ToNumber as used by `value > 1900`; None stands for NaN.
      Strings are all taken to be NaN: numeric strings are not parsed here. */
  function ToNumber(v: Value): Option<real> {
    match v
    case Undefined => None
    case Null => Some(0.0)
    case Bool(b) => Some(if b then 1.0 else 0.0)
    case Num(x) => Some(x)
    case Str(_) => None
  }

  function UpperChar(c: char): char {
    if 'a' <= c <= 'z' then (c as int - 32) as char else c
  }

  /** `toUpperCase` on the ASCII letters; other characters are kept. */
  function UpperAscii(s: string): (r: string)
    ensures |r| == |s|
    ensures forall i :: 0 <= i < |s| ==> r[i] == UpperChar(s[i])
  {
    if s == [] then [] else [UpperChar(s[0])] + UpperAscii(s[1..])
  }
}
