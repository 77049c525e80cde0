/** Types shared by every part of the model: optional values, identifiers and HTTP responses. */
module Common {

  /** A value that may be absent: Python's `None`, JavaScript's `null`/`undefined`. */
  datatype Option<+T> = None | Some(value: T)

  /** Primary keys of every table are uuid strings. */
  type Id = string

  /**
   * Python's `value or fallback` for an optional string: `None` and the empty string are
   * falsy, so both give the fallback.
   */
  function OrElse(value: Option<string>, fallback: string): string
  {
    if value.Some? && value.value != "" then value.value else fallback
  }

  /** Python's `a or b` for two optional strings. */
  function OrOption(a: Option<string>, b: Option<string>): Option<string>
  {
    if a.Some? && a.value != "" then a else b
  }

  /** The value under `key` of a JSON object, `dict.get(key)`. */
  function Get(m: map<string, string>, key: string): Option<string>
  {
    if key in m then Some(m[key]) else None
  }

  /** Timestamps are integer milliseconds since the epoch. */
  type Time = int

  const OK: int := 200
  const BAD_REQUEST: int := 400
  const UNAUTHORIZED: int := 401
  const FORBIDDEN: int := 403
  const NOT_FOUND: int := 404
  const INTERNAL_SERVER_ERROR: int := 500

  /** FastAPI's answer for an exception nothing catches. */
  const UNHANDLED_DETAIL: string := "Internal Server Error"

  /**
   * The outcome of an endpoint: the value it returns, or the `HTTPException` it raises,
   * with the exception's status code, `detail` and extra response headers.
   */
  datatype Response<+T> =
    | Ok(value: T)
    | Error(status: int, detail: string, headers: map<string, string>)

  /** An `HTTPException(status_code, detail)` without extra headers. */
  function Fail<T>(status: int, detail: string): Response<T>
  {
    Error(status, detail, map[])
  }

  /** An exception the endpoint does not catch, which FastAPI turns into a 500. */
  function Unhandled<T>(): Response<T>
  {
    Fail(INTERNAL_SERVER_ERROR, UNHANDLED_DETAIL)
  }
}
