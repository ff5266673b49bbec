/** Option for the nullable columns and the optional request fields. */
module Wrappers {
  datatype Option<+T> = None | Some(value: T)
}

/** HTTP status codes and JSON values shared by the controllers. */
module Http {
  import opened Wrappers

  const OK: int := 200
  const CREATED: int := 201
  const BAD_REQUEST: int := 400
  const UNAUTHORIZED: int := 401
  const NOT_FOUND: int := 404
  const CONFLICT: int := 409
  const UNPROCESSABLE: int := 422
  const SERVER_ERROR: int := 500

  /** A decoded JSON document, as PHP's json_decode(..., true) yields it. */
  datatype Json =
    | JNull
    | JBool(b: bool)
    | JInt(i: int)
    | JStr(s: string)
    | JArray(elems: seq<Json>)
    | JObject(fields: map<string, Json>)

  /** What a controller action returns: a status code and, when there is one, a payload. */
  datatype Reply<T> = Reply(status: int, data: Option<T>)
}
