/** Values as the route handlers see them: JSON request bodies and query
    parameters, with `undefined` for a key that is absent. */
module Js {

  datatype Option<+T> = None | Some(value: T)

  /** A decoded JSON value, or `undefined`. Numbers are integers here (prices
      in cents); NaN cannot arrive in a JSON body and is not represented. */
  datatype Value =
    | Undefined
    | Null
    | Bool(b: bool)
    | Num(n: int)
    | Str(s: string)
    | Arr(items: seq<Value>)
    | Obj(fields: map<string, Value>)

  /** JavaScript truthiness: `undefined`, `null`, `false`, `0` and `""` are falsy. */
  predicate Truthy(v: Value) {
    match v
    case Undefined => false
    case Null => false
    case Bool(b) => b
    case Num(n) => n != 0
    case Str(s) => s != ""
    case _ => true
  }

  /** `v == null` (loose equality): true of `null` and `undefined` only. */
  predicate Nullish(v: Value) {
    v.Undefined? || v.Null?
  }

  /** `typeof v === 'number'`. */
  predicate IsNumber(v: Value) {
    v.Num?
  }

  /** `v < n` for a number literal `n`, under JavaScript's coercion, for the
      values where the outcome is determined here: numbers compare as they are,
      `undefined` becomes NaN (never less), `null` and booleans become 0 or 1.
      Strings, arrays and objects go through a numeric parse that this model
      does not represent; they evaluate to false. */
  predicate LessThan(v: Value, n: int) {
    match v
    case Num(x) => x < n
    case Null => 0 < n
    case Bool(b) => (if b then 1 else 0) < n
    case _ => false
  }

  /** `body.k` on a parsed body object: an absent key reads as `undefined`. */
  function Field(body: map<string, Value>, k: string): (v: Value)
    ensures k !in body ==> v.Undefined?
    ensures k in body ==> v == body[k]
  {
    if k in body then body[k] else Undefined
  }

  /** Property read `v.k`: `None` when it throws a TypeError (reading a
      property of `null` or `undefined`). Primitives and arrays carry none of
      the record properties the routes read, so those reads give `undefined`. */
  function Prop(v: Value, k: string): (r: Option<Value>)
    ensures r.None? <==> Nullish(v)
    ensures v.Obj? ==> r == Some(Field(v.fields, k))
  {
    match v
    case Undefined => None
    case Null => None
    case Obj(fields) => Some(Field(fields, k))
    case _ => Some(Undefined)
  }
}

/** Responses of the HTTP layer and outcomes of the calls a handler makes. */
module Http {
  import Js

  const OK := 200
  const CREATED := 201
  const BAD_REQUEST := 400
  const FORBIDDEN := 403
  const NOT_FOUND := 404
  const SERVER_ERROR := 500

  /** What a handler answers: a JSON payload with a status, or an error status. */
  datatype Reply<+T> = Send(status: int, payload: T) | Fail(status: int)

  /** What a manager call did: returned a value, or threw an error carrying an
      optional `statusCode`. */
  datatype Outcome<+T> = Returned(value: T) | Threw(statusCode: Js.Option<int>)

  /** `validateObjectId(id, …)`, which both ObjectId routers define: passes
      when the id is truthy and the ObjectId library's test `isValid`
      accepts it, and otherwise throws an error with status 400. */
  predicate ValidObjectId(id: Js.Value, isValid: Js.Value -> bool) {
    Js.Truthy(id) && isValid(id)
  }

  /** A handler's checks before it calls a manager: rejected with a status,
      or passed, with the arguments of the call it then makes. */
  datatype Guard<+A> = Reject(status: int) | Call(args: A)

  /** The check of a route whose only parameter is one id (a cart's or a
      product's): 400 unless the id passes `validateObjectId`. */
  function IdGuard(id: string, isValid: Js.Value -> bool): (g: Guard<string>)
    ensures g.Call? <==> ValidObjectId(Js.Str(id), isValid)
    ensures g.Call? ==> g.args == id
    ensures g.Reject? ==> g.status == BAD_REQUEST
  {
    if !ValidObjectId(Js.Str(id), isValid) then Reject(BAD_REQUEST) else Call(id)
  }

  /** The reply of a handler that answers `res.json(result)` (with status
      `success`) once its guard passed, and passes any error to `next`. */
  function Answer<A, T>(g: Guard<A>, out: Outcome<T>, success: int): (r: Reply<T>)
    ensures g.Reject? ==> r == Fail(g.status)
    ensures g.Call? && out.Returned? ==> r == Send(success, out.value)
    ensures g.Call? && out.Threw? ==> r == Fail(ErrorStatus(out.statusCode))
  {
    match g
    case Reject(s) => Fail(s)
    case Call(_) =>
      match out
      case Returned(v) => Send(success, v)
      case Threw(c) => Fail(ErrorStatus(c))
  }

  /** The status the application's error handler answers for an error passed
      to `next`: its `statusCode`, or 500 when it has none. */
  function ErrorStatus(statusCode: Js.Option<int>): (s: int)
    ensures statusCode.None? ==> s == SERVER_ERROR
    ensures statusCode.Some? ==> s == statusCode.value
  {
    match statusCode
    case None => SERVER_ERROR
    case Some(c) => c
  }
}
