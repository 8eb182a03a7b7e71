/** The few pieces of JavaScript value semantics the route handlers depend on:
    a request-body field that may be missing or null, truthiness, and the
    operators `||` and `??` used to merge a request into a stored record. */
module Js {

  /** A request-body field: `undefined` when the client did not send it,
      `null` when it sent null, or a value already of the schema's type. */
  datatype Field<T> = Undefined | Null | Present(value: T)

  /** A decoded token claim, whose type is whatever the token's issuer put there. */
  datatype JsValue = Undef | JNull | JBool(b: bool) | JNum(n: int) | JStr(s: string)

  /** JavaScript truthiness: false, 0, "", null and undefined are falsy. */
  predicate Truthy(v: JsValue)
  {
    match v
    case Undef => false
    case JNull => false
    case JBool(b) => b
    case JNum(n) => n != 0
    case JStr(s) => s != ""
  }

  /** The JavaScript value a string or boolean request field holds. */
  function StringValue(f: Field<string>): JsValue
  {
    match f
    case Undefined => Undef
    case Null => JNull
    case Present(s) => JStr(s)
  }

  function BoolValue(f: Field<bool>): JsValue
  {
    match f
    case Undefined => Undef
    case Null => JNull
    case Present(b) => JBool(b)
  }

  /** Truthiness of a string request field. */
  predicate TruthyString(f: Field<string>)
  {
    Truthy(StringValue(f))
  }

  /** A string field is truthy exactly when it was sent and is not empty. */
  lemma TruthyStringNonEmpty(f: Field<string>)
    ensures TruthyString(f) <==> f.Present? && f.value != ""
  {
  }

  /** A boolean field is truthy exactly when it was sent as `true`. */
  lemma TruthyBoolIsTrue(f: Field<bool>)
    ensures Truthy(BoolValue(f)) <==> f == Present(true)
  {
  }

  /** `f || fallback` for a string field: the field wins only when it is a non-empty string. */
  function OrString(f: Field<string>, fallback: string): (r: string)
    ensures f.Present? && f.value != "" ==> r == f.value
    ensures !(f.Present? && f.value != "") ==> r == fallback
  {
    if TruthyString(f) then f.value else fallback
  }

  /** `f || fallback` for a boolean field: true when the field was sent as `true`, else the fallback. */
  function OrBool(f: Field<bool>, fallback: bool): (r: bool)
    ensures r <==> f == Present(true) || fallback
  {
    if Truthy(BoolValue(f)) then f.value else fallback
  }

  /** `f ?? fallback`: the field wins unless it is null or undefined. */
  function Coalesce<T>(f: Field<T>, fallback: T): (r: T)
    ensures f.Present? ==> r == f.value
    ensures f == Undefined || f == Null ==> r == fallback
  {
    match f
    case Present(v) => v
    case _ => fallback
  }

  /** An explicit `false` is kept by `??` and discarded by `||`. */
  lemma FalseSurvivesCoalesceNotOr(fallback: bool)
    ensures Coalesce(Present(false), fallback) == false
    ensures OrBool(Present(false), fallback) == fallback
  {
  }
}

/** Outcomes of a request handler: a body, or an error status with its message. */
module Http {

  /** Why an unhandled exception reached the 500 handler. */
  datatype Cause =
    | ValidationFailed   // a Mongoose schema validator (required, enum) rejected the document
    | DuplicateKey       // a unique index rejected the write
    | ReferenceError     // a variable was read before its declaration
    | IllegalArguments   // bcrypt was given something other than a string
    | TypeError          // a method was called on undefined

  datatype Error =
    | ClientError(status: nat, message: string)
    | ServerError(cause: Cause)

  datatype Result<T> = Success(value: T) | Failure(error: Error)

  datatype Option<T> = None | Some(value: T)

  /** The HTTP status a client sees for an error. */
  function Status(e: Error): (code: nat)
    ensures e.ClientError? ==> code == e.status
    ensures e.ServerError? ==> code == 500
  {
    match e
    case ClientError(s, _) => s
    case ServerError(_) => 500
  }

  const ORDER_NOT_FOUND: Error := ClientError(404, "Order Not Found")
  const USER_NOT_FOUND: Error := ClientError(404, "User Not Found")
  const PROFILE_USER_NOT_FOUND: Error := ClientError(404, "User not found")
  const INVALID_CREDENTIALS: Error := ClientError(401, "Invalid email or password")
  const NO_TOKEN: Error := ClientError(401, "No Token")
  const INVALID_TOKEN: Error := ClientError(401, "Invalid Token")
  const INVALID_ADMIN_TOKEN: Error := ClientError(401, "Invalid Admin Token")
}
