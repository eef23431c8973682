/** JavaScript values as the adapter reads them from its parsed JSON
    configuration files: only the distinctions the adapter's checks make. */
module JsValues {

  datatype Option<+T> = None | Some(value: T)

  /** A property value of a parsed JSON object. `Undefined` stands for a
      property that is absent; `Obj` for any object or array. A JSON number
      is kept as the exact real it denotes. */
  datatype JsValue =
    | Undefined
    | Null
    | Bool(b: bool)
    | Num(r: real)
    | Str(s: string)
    | Obj

  /** JavaScript truthiness (`!!v`): false, 0, "", null and undefined are
      falsy; every object is truthy. */
  predicate Truthy(v: JsValue)
  {
    match v
    case Undefined => false
    case Null => false
    case Bool(b) => b
    case Num(r) => r != 0.0
    case Str(s) => s != ""
    case Obj => true
  }

  /** `Number.isInteger(v)`: a number with no fractional part. */
  predicate IsInteger(v: JsValue)
  {
    v.Num? && v.r.Floor as real == v.r
  }

  /** Strict equality `v === 0`: only the number zero. */
  predicate IsZero(v: JsValue)
  {
    v == Num(0.0)
  }

  /** The characters `String.prototype.trim` removes: ECMAScript WhiteSpace
      (tab, vertical tab, form feed, space, no-break space, byte order mark
      and the Unicode space separators) and LineTerminator. */
  predicate IsJsWhitespace(c: char)
  {
    || c == '\t' || c == '\U{000B}' || c == '\U{000C}' || c == ' '
    || c == '\U{00A0}' || c == '\U{FEFF}' || c == '\U{1680}'
    || ('\U{2000}' <= c <= '\U{200A}')
    || c == '\U{202F}' || c == '\U{205F}' || c == '\U{3000}'
    || c == '\n' || c == '\r' || c == '\U{2028}' || c == '\U{2029}'
  }

  /** `s.trim()` is the empty string exactly when every character of `s`
      is one that trim removes. */
  predicate IsBlank(s: string)
  {
    forall i :: 0 <= i < |s| ==> IsJsWhitespace(s[i])
  }
}
