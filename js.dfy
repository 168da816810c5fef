/** Values the route handlers see from JavaScript: optional values, JSON
    scalars, JavaScript truthiness and `||`, HTTP replies and the
    `{ data, error }` shape of every remote table call. */
module Js {

  /** `None` stands for `undefined` / a missing property (or `null` where the
      source treats both alike). */
  datatype Option<T> = None | Some(value: T)

  /** A JSON scalar as it can arrive in a request body. */
  datatype Scalar = Null | Bool(b: bool) | Num(n: real) | Str(s: string)

  /** JavaScript truthiness of an optional string: `undefined`, `null` and
      `""` are falsy. */
  predicate Truthy(o: Option<string>)
  {
    o.Some? && o.value != ""
  }

  /** JavaScript truthiness of an optional JSON scalar. */
  predicate ScalarTruthy(v: Option<Scalar>)
  {
    v.Some? &&
    match v.value
    case Null => false
    case Bool(b) => b
    case Num(n) => n != 0.0
    case Str(s) => s != ""
  }

  /** JavaScript `a || b` on optional strings: `a` when truthy, else `b`. */
  function Or(a: Option<string>, b: Option<string>): (r: Option<string>)
    ensures Truthy(a) ==> r == a
    ensures !Truthy(a) ==> r == b
    ensures Truthy(r) <==> Truthy(a) || Truthy(b)
  {
    if Truthy(a) then a else b
  }

  /** JavaScript `a || "literal"` with a non-empty literal: always a truthy string. */
  function OrDefault(a: Option<string>, default: string): (r: string)
    requires default != ""
    ensures r != ""
    ensures Truthy(a) ==> r == a.value
    ensures !Truthy(a) ==> r == default
  {
    if Truthy(a) then a.value else default
  }

  /** The first truthy candidate, or `default` when none is: the meaning of
      a chain `c0 || c1 || … || default`. */
  function FirstTruthy(candidates: seq<Option<string>>, default: string): (r: string)
    requires default != ""
    ensures r != ""
    ensures r == default || exists i :: 0 <= i < |candidates| && candidates[i] == Some(r)
    ensures forall i :: 0 <= i < |candidates| && Truthy(candidates[i]) ==>
              (forall j :: 0 <= j < i ==> !Truthy(candidates[j])) ==> r == candidates[i].value
    ensures (forall i :: 0 <= i < |candidates| ==> !Truthy(candidates[i])) ==> r == default
  {
    if candidates == [] then default
    else if Truthy(candidates[0]) then candidates[0].value
    else FirstTruthy(candidates[1..], default)
  }

  /** An HTTP reply: a status with a JSON body, or a status with `{ message }`
      (`None` when the message itself was `undefined`). */
  datatype Reply<T> = Ok(status: nat, body: T) | Fail(status: nat, message: Option<string>)

  /** What a remote table call resolves to: an error (with its message) or
      data, which may be `null`. */
  datatype Fetch<T> = FetchError(message: Option<string>) | Fetched(data: Option<T>)

  /** `data || []` for a list-valued query. */
  function RowsOrEmpty<T>(data: Option<seq<T>>): seq<T>
  {
    if data.Some? then data.value else []
  }
}
