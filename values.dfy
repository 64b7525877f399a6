/**
 * PHP values as the package passes them around: `mixed` payloads, model
 * outputs, tool-call arguments and the nested arrays sent to the chat API.
 * The PHP operators the package relies on (`$a['k'] ?? $d`, `isset`,
 * truthiness, string conversion for `implode`, coercion of scalars passed to
 * a `string` parameter) are defined here, once.
 */
module Values {

  datatype Option<+T> = None | Some(value: T) {
    /** `$x ?? $default` for a nullable value. */
    function GetOr(default: T): T {
      match this
      case Some(v) => v
      case None => default
    }
  }

  datatype Result<+T, +E> = Success(value: T) | Failure(error: E)

  /**
   * A PHP float. No arithmetic is done on floats anywhere in the package, so
   * a float is carried as the text PHP prints for it ("0.7", "-0", "1.0E+25").
   */
  datatype Float = Float(text: string)

  /**
   * A PHP value. Arrays with consecutive integer keys from 0 are lists, all
   * other arrays are string-keyed maps; the literal `[]` is `VList([])`.
   */
  datatype Value =
    | VNull
    | VBool(b: bool)
    | VInt(i: int)
    | VFloat(f: Float)
    | VStr(s: string)
    | VList(items: seq<Value>)
    | VMap(fields: map<string, Value>)

  /** `$v[$key] ?? null`: null when `$v` is not an array, the key is missing or its value is null. */
  function Get(v: Value, key: string): Value {
    if v.VMap? && key in v.fields then v.fields[key] else VNull
  }

  /** `isset($v[$key])`. */
  predicate IsSet(v: Value, key: string) {
    Get(v, key) != VNull
  }

  /** `$v[$key] ?? $default`. */
  function GetOr(v: Value, key: string, default: Value): Value {
    if IsSet(v, key) then Get(v, key) else default
  }

  /** `is_array($v)`. */
  predicate IsArray(v: Value) {
    v.VList? || v.VMap?
  }

  /** PHP's conversion to bool: `if ($v)`, `!empty($v)`. */
  predicate Truthy(v: Value) {
    match v
    case VNull => false
    case VBool(b) => b
    case VInt(i) => i != 0
    case VFloat(f) => f.text != "0" && f.text != "-0"
    case VStr(s) => s != "" && s != "0"
    case VList(items) => |items| > 0
    case VMap(fields) => |fields| > 0
  }

  /** Truthiness of a `?string`. */
  predicate TruthyString(s: Option<string>) {
    s.Some? && Truthy(VStr(s.value))
  }

  function DigitChar(d: int): char
    requires 0 <= d < 10
  {
    "0123456789"[d]
  }

  /** Decimal text of a natural number, most significant digit first. */
  function NatToString(n: nat): string
    decreases n
  {
    if n < 10 then [DigitChar(n)] else NatToString(n / 10) + [DigitChar(n % 10)]
  }

  /** `(string) $i` for an integer. */
  function IntToString(i: int): string {
    if i < 0 then "-" + NatToString(-i) else NatToString(i)
  }

  /**
   * `(string) $v` as `implode` performs it: null and false give "", true "1",
   * arrays "Array" (with a PHP warning).
   */
  function ToPhpString(v: Value): string {
    match v
    case VNull => ""
    case VBool(b) => if b then "1" else ""
    case VInt(i) => IntToString(i)
    case VFloat(f) => f.text
    case VStr(s) => s
    case VList(_) => "Array"
    case VMap(_) => "Array"
  }

  /**
   * Coercion of an argument passed to a user function's `string` parameter
   * in PHP's default (non-strict) typing mode: scalars are converted, null
   * and arrays are a TypeError (`None`).
   */
  function CoerceToString(v: Value): Option<string> {
    match v
    case VStr(s) => Some(s)
    case VInt(i) => Some(IntToString(i))
    case VFloat(f) => Some(f.text)
    case VBool(b) => Some(if b then "1" else "")
    case _ => None
  }

  /** A list of strings as a PHP list of strings. */
  function Strings(ss: seq<string>): (r: Value)
    ensures r.VList? && |r.items| == |ss|
    ensures forall i :: 0 <= i < |ss| ==> r.items[i] == VStr(ss[i])
  {
    VList(seq(|ss|, i requires 0 <= i < |ss| => VStr(ss[i])))
  }
}
