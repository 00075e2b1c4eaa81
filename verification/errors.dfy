/**
 The exceptions an operation of the library can end in, and the status-code
 table both clients consult (`error_map` with its `.get(value, 999)` lookup).
 */
module Errors {
  import opened JsonData

  /** The library's typed failures (BadRequest ... UnknownError). */
  datatype ErrorKind =
    | BadRequest
    | Unauthenticated
    | Forbidden
    | NotFound
    | InternalServerError
    | UnknownError

  /** Why Python raised a TypeError inside the library. */
  datatype TypeFault =
    | NotCallable       // calling the raw int 999 returned by the status lookup
    | NotSubscriptable  // `data['key']` on something that is not a dict
    | NotIterable       // `for item in v` on a number, bool or null
    | NotNumeric        // `int(v)` on null, a list or a dict

  /** Why Python raised a ValueError inside the library. */
  datatype ValueFault =
    | InvalidLiteral(literal: string)  // `int(s)` on a string that is not a decimal literal
    | UnknownMethod(verb: string)    // `_request` with a verb other than GET/POST/PUT/DELETE

  /** Every exception an operation can end in. */
  datatype Error =
    | Api(kind: ErrorKind, message: Json)  // a typed failure carrying the server's message
    | ConnectionError(cause: Error)        // whatever went wrong inside a `try` block, wrapped
    | TransportError(reason: string)       // raised by the HTTP transport itself
    | DecodeError                          // `response.json()` could not decode the body
    | KeyError(key: string)
    | TypeError(fault: TypeFault)
    | ValueError(vfault: ValueFault)

  /** A value, or the exception that was raised instead. */
  datatype Result<+T> = Ok(value: T) | Err(error: Error)

  /** What the status lookup hands back: an exception class, or the raw int 999. */
  datatype Handler = Raises(kind: ErrorKind) | RawSentinel

  /** `error_map` as set up by `_setup`. */
  function ErrorMap(): map<int, ErrorKind> {
    map[400 := BadRequest, 401 := Unauthenticated, 403 := Forbidden, 404 := NotFound,
        500 := InternalServerError, 999 := UnknownError]
  }

  /** `error_map.get(status, 999)`: the five listed codes and 999 give an exception class; every other code gives the raw 999. */
  function Classify(status: int): (h: Handler)
    ensures h == Raises(BadRequest) <==> status == 400
    ensures h == Raises(Unauthenticated) <==> status == 401
    ensures h == Raises(Forbidden) <==> status == 403
    ensures h == Raises(NotFound) <==> status == 404
    ensures h == Raises(InternalServerError) <==> status == 500
    ensures h == Raises(UnknownError) <==> status == 999
    ensures h == RawSentinel <==> status !in {400, 401, 403, 404, 500, 999}
  {
    if status in ErrorMap() then Raises(ErrorMap()[status]) else RawSentinel
  }

  /** `raise handler(message)`: an exception class is instantiated; calling the raw int fails with a TypeError. */
  function Raise(h: Handler, message: Json): (e: Error)
    ensures e.TypeError? <==> h.RawSentinel?
    ensures e.TypeError? ==> e.fault == NotCallable
    ensures h.Raises? ==> e.Api? && e.kind == h.kind && e.message == message
  {
    match h
    case Raises(kind) => Api(kind, message)
    case RawSentinel => TypeError(NotCallable)
  }

  /** As written, a status outside the table never reaches UnknownError: `raise 999(message)` is a TypeError. */
  lemma UnlistedStatusNotCallable(status: int, message: Json)
    requires status !in ErrorMap()
    ensures Raise(Classify(status), message) == TypeError(NotCallable)
  {
  }

  /** The evidently intended lookup: unlisted codes fall back to the UnknownError class kept under 999. */
  function RaiseIntended(status: int, message: Json): (e: Error)
    ensures e.Api? && e.message == message
    ensures status in ErrorMap() ==> e == Raise(Classify(status), message)
    ensures status !in ErrorMap() ==> e.kind == UnknownError
  {
    Api(if status in ErrorMap() then ErrorMap()[status] else ErrorMap()[999], message)
  }
}
