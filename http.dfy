/**
 * What a route handler reads from a request and what it answers:
 * JSON field values with JavaScript's truthiness, a body that `req.json()`
 * may fail to parse, and a reply with its HTTP status.
 */
module Http {

  /**
   * One field of a JSON request body. `Absent` is a key the body does not
   * have (`undefined` in JavaScript); `Compound` is an array or an object,
   * carrying the text `String(v)` gives for it.
   */
  datatype Json =
    | Absent
    | Null
    | Bool(b: bool)
    | Num(n: real)
    | Str(s: string)
    | Compound(text: string)

  /** JavaScript truthiness, as a guard `if (!field)` tests it. */
  predicate Truthy(v: Json) {
    match v
    case Absent => false
    case Null => false
    case Bool(b) => b
    case Num(n) => n != 0.0
    case Str(s) => s != ""
    case Compound(_) => true
  }

  /** A request body: `req.json()` throws, or it yields an object whose fields are read. */
  datatype Body<T> = Unparsable | Parsed(fields: T)

  /**
   * A JSON reply: a success body, an `{error}` body, or a validation
   * failure listing the request fields the schema rejected.
   */
  datatype Reply<T> =
    | Ok(status: int, value: T)
    | Fail(status: int, error: string)
    | Invalid(status: int, error: string, fields: seq<string>)

  /** The reply of every handler's outer `catch`. */
  function Internal<T>(): Reply<T> {
    Fail(500, "Internal server error")
  }
}
