/** PHP's loosely typed scalar values and the conversions both components rely on. */
module Php {

  datatype Option<+T> = None | Some(value: T)

  /** A PHP scalar: null, a bool, an int or a string (floats are not modelled). */
  datatype Scalar = Null | Bool(b: bool) | Int(i: int) | Str(s: string)

  /** PHP's conversion to bool: what `if ($x)`, `$x ? … : …` and `$x ?: $y` test,
      and the negation of `empty($x)`. */
  predicate Truthy(v: Scalar) {
    match v
    case Null => false
    case Bool(b) => b
    case Int(i) => i != 0
    case Str(s) => s != "" && s != "0"
  }

  /** `a ?: b`: the left operand when it is truthy, the right one otherwise. */
  function Elvis(a: Scalar, b: Scalar): Scalar {
    if Truthy(a) then a else b
  }

  /** String conversion of a string-or-null, as the `.` operator does it (null becomes ""). */
  function Text(s: Option<string>): string {
    if s.Some? then s.value else ""
  }

  /** Exactly five scalars are falsy: null, false, 0, "" and "0". */
  lemma FalsyScalars(v: Scalar)
    ensures !Truthy(v) <==> v == Null || v == Bool(false) || v == Int(0) || v == Str("") || v == Str("0")
  {
  }

  /** `?:` yields a truthy value exactly when one of its operands is truthy. */
  lemma ElvisTruthy(a: Scalar, b: Scalar)
    ensures Truthy(Elvis(a, b)) <==> Truthy(a) || Truthy(b)
  {
  }
}
