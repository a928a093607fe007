/** The error values of the older `ginruntime` package (ginruntime/errors.go)
    and the way its middleware turns the first of them into a response. */
module LegacyErrors {
  import opened Gin

  /** The `ApiError` struct: `Details` is tagged `json:"-"`. */
  datatype ApiError = ApiError(code: int, message: string, details: string)

  /** The errors a handler may record. A `DbError` wraps another error,
      given here by that error's message. `ApiError` is matched by value,
      so a pointer to one is a separate kind. */
  datatype LegacyError =
    | ApiValue(api: ApiError)
    | ApiPointer(ptr: ApiError)
    | Db(dbCode: int, wrapped: string)
    | UnauthorizedError
    | Other(text: string)

  /** The `Error()` method of each kind. */
  function ErrorText(e: LegacyError): (r: string)
    ensures e.ApiValue? ==> r == e.api.message
    ensures e.ApiPointer? ==> r == e.ptr.message
    ensures e.Db? ==> r == e.wrapped
    ensures e.UnauthorizedError? ==> r == "Unauthorized"
    ensures e.Other? ==> r == e.text
  {
    match e
    case ApiValue(api) => api.message
    case ApiPointer(api) => api.message
    case Db(_, wrapped) => wrapped
    case UnauthorizedError => "Unauthorized"
    case Other(text) => text
  }

  /** How `encoding/json` renders an `ApiError`: `code` and `message` only. */
  function ApiErrorJson(e: ApiError): (j: Json)
    ensures j.JObject? && |j.members| == 2
    ensures j.members[0] == ("code", JInt(e.code)) && j.members[1] == ("message", JString(e.message))
  {
    JObject([("code", JInt(e.code)), ("message", JString(e.message))])
  }

  /** The details never reach the client: two errors differing only there render alike. */
  lemma DetailsNotSerialised(code: int, message: string, d1: string, d2: string)
    ensures ApiErrorJson(ApiError(code, message, d1)) == ApiErrorJson(ApiError(code, message, d2))
  {
  }

  const InternalServerErrorCode: int := 500
  const InternalServerErrorText: string := "Internal Server Error"

  /** The type switch of `jsonErrorReporter`: an `ApiError` value is used as
      it is; a `DbError` becomes 500 with its message (its own code is
      ignored); anything else becomes 500 "Internal Server Error". */
  function ParseError(e: LegacyError): (r: ApiError)
    ensures e.ApiValue? ==> r == e.api
    ensures e.Db? ==> r.code == 500 && r.message == ErrorText(e)
    ensures !e.ApiValue? && !e.Db? ==> r.code == 500 && r.message == InternalServerErrorText
    ensures !e.ApiValue? ==> r.details == []
  {
    match e
    case ApiValue(api) => api
    case Db(_, _) => ApiError(InternalServerErrorCode, ErrorText(e), [])
    case _ => ApiError(InternalServerErrorCode, InternalServerErrorText, [])
  }

  /** `logError`'s choice of level: error for 500-599, warning for anything else. */
  function LogLevel(code: int): (l: Level)
    ensures l == Error <==> 500 <= code <= 599
    ensures l == Warn <==> !(500 <= code <= 599)
  {
    if code > 499 && code < 600 then Error
    else if code > 399 && code < 500 then Warn
    else Warn
  }

  /** Every kind other than an `ApiError` value leads to a 500 response
      logged at error level. */
  lemma NonApiErrorsAre500(e: LegacyError)
    requires !e.ApiValue?
    ensures ParseError(e).code == 500 && LogLevel(ParseError(e).code) == Error
  {
  }
}
