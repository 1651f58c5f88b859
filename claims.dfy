/** Values of a decoded token payload, as the JSON parser hands them to Ruby,
    and the few Ruby operations on them that the strategy relies on. */
module Claims {

  datatype Option<+T> = None | Some(value: T)

  /** A claim value. JSON integers become Int, JSON fractions become Float
      (modelled as an exact real), arrays and nested objects are Other. */
  datatype Value =
    | Int(i: int)
    | Float(f: real)
    | Str(s: string)
    | Bool(b: bool)
    | Null
    | Other

  /** The decoded payload: claim name to value. */
  type ClaimSet = map<string, Value>

  /** Ruby truthiness: only nil and false are falsy (0 and "" are truthy). */
  predicate Truthy(v: Value) {
    !(v.Null? || v == Bool(false))
  }

  /** `Hash#[]`: the value stored under the key, or nil when the key is absent. */
  function Lookup(c: ClaimSet, name: string): Value {
    if name in c then c[name] else Null
  }

  /** How a call of the strategy ends: a value, or one of the exceptions it raises.
      ClaimInvalid carries the message of `OmniAuth::Strategies::JWT::ClaimInvalid`;
      IatTypeError is the TypeError Ruby raises when `iat` is not a number;
      DecodeError is whatever `::JWT.decode` raises for a bad token. */
  datatype Outcome<+T> =
    | Ok(value: T)
    | ClaimInvalid(message: string)
    | IatTypeError
    | DecodeError

  /** Re-raise a failure at another result type. */
  function Propagate<T, U>(o: Outcome<T>): (r: Outcome<U>)
    requires !o.Ok?
    ensures !r.Ok?
    ensures r.ClaimInvalid? <==> o.ClaimInvalid?
    ensures r.ClaimInvalid? ==> r.message == o.message
    ensures r.IatTypeError? <==> o.IatTypeError?
  {
    match o
    case ClaimInvalid(m) => ClaimInvalid(m)
    case IatTypeError => IatTypeError
    case DecodeError => DecodeError
  }
}
