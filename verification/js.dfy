/**
 * The JavaScript value semantics the server relies on: JSON values as they
 * arrive in token payloads, tool arguments and backend replies, truthiness,
 * the `||` fallback, property access and `Number(...)` coercion; and the
 * `Error` objects the source throws.
 */
module Js {
  import opened Wrappers

  /** A JSON value. Numbers are reals; NaN and the infinities are not values here. */
  datatype JsValue =
    | Undefined
    | Null
    | Bool(b: bool)
    | Num(n: real)
    | Str(s: string)
    | Arr(items: seq<JsValue>)
    | Obj(fields: map<string, JsValue>)

  /** JavaScript truthiness: `undefined`, `null`, `false`, `0` and `""` are falsy. */
  predicate Truthy(v: JsValue) {
    match v
    case Undefined => false
    case Null => false
    case Bool(b) => b
    case Num(n) => n != 0.0
    case Str(s) => s != ""
    case Arr(_) => true
    case Obj(_) => true
  }

  /** `a || b`: the first operand when it is truthy, the second otherwise. */
  function Or(a: JsValue, b: JsValue): JsValue {
    if Truthy(a) then a else b
  }

  /** `v.key` (or `v[key]`): a missing property, or a property of a non-object, is `undefined`. */
  function Get(v: JsValue, key: string): JsValue {
    match v
    case Obj(m) => if key in m then m[key] else Undefined
    case _ => Undefined
  }

  /** `z.string().optional()` accepts the value. */
  predicate OptionalString(v: JsValue) {
    v.Undefined? || v.Str?
  }

  /** The value an accepted optional string field holds. */
  function AsOptionalString(v: JsValue): Option<string>
    requires OptionalString(v)
  {
    if v.Str? then Some(v.s) else None
  }

  /** An optional string field as the value JavaScript holds for it. */
  function FromOption(o: Option<string>): JsValue {
    if o.Some? then Str(o.value) else Undefined
  }

  /**
   * `Number(v)`, with None standing for NaN. Parsing a numeric string is the
   * engine's business and is passed in as `parseNumber`.
   *
   * An array converts through its string form, its elements joined by commas:
   * an empty array is 0, two or more elements are NaN (the comma), and a
   * single element counts as its own string form, where `undefined` and
   * `null` are "" (0), a boolean is "true" or "false" (NaN), a number prints
   * back to itself and an array is converted the same way.
   */
  function ToNumber(v: JsValue, parseNumber: string -> Option<real>): Option<real> {
    match v
    case Undefined => None
    case Null => Some(0.0)
    case Bool(b) => Some(if b then 1.0 else 0.0)
    case Num(n) => Some(n)
    case Str(s) => parseNumber(s)
    case Arr(items) =>
      if |items| == 0 then Some(0.0)
      else if |items| > 1 then None
      else (match items[0]
        case Undefined => Some(0.0)
        case Null => Some(0.0)
        case Bool(_) => None
        case _ => ToNumber(items[0], parseNumber))
    case Obj(_) => None
  }

  /**
   * A thrown `Error`: its message, and the `status` and `code` properties some
   * throw sites attach. Status 0 and code "" stand for a property the object
   * does not carry (both are falsy wherever the source tests them).
   */
  datatype ThrownError = ThrownError(message: string, status: int, code: string)

  /** `new Error(message)` with no extra properties. */
  function PlainError(message: string): ThrownError {
    ThrownError(message, 0, "")
  }

  /**
   * How a tool callback fails: argument validation rejects the input (the
   * schema's issues, by field), or a later step throws an error whose message
   * the callback has already prefixed.
   */
  datatype ToolError = InvalidArguments(issues: seq<string>) | Failed(message: string)

  /** True when `p` is a prefix of `s`. */
  predicate StartsWith(s: string, p: string) {
    |p| <= |s| && s[..|p|] == p
  }
}

/** The identity-provider settings read from the environment (an unset variable is ""). */
module Cognito {

  datatype CognitoConfig = CognitoConfig(
    region: string,
    userPoolId: string,
    appClientId: string,
    domain: string)

  /** The Nightscout site and token stored as attributes of a Cognito user. */
  datatype NightscoutCredentials = NightscoutCredentials(baseUrl: string, accessToken: string)
}
