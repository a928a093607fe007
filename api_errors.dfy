/** The error values of the `aws/ginruntime` package (aws/ginruntime/errors.go):
    an API error pairs an HTTP status with a reason, and `Normalize` turns
    any error a handler records into one. Status meanings are those of
    section 15 of RFC 9110; 424 is from section 11.4 of RFC 4918. */
module ApiErrors {
  import opened Wrappers

  /** `*ApiError`. The `Detail` error is never read by the package and is
      not part of the model. */
  datatype ApiError = ApiError(status: int, reason: string)

  /** The errors a handler may record: an `*ApiError`, an `*httpcomm.HTTPError`
      (its status code and the text its `Error()` gives), or anything else
      (the text its `Error()` gives). */
  datatype AppError =
    | Api(api: ApiError)
    | Http(statusCode: int, text: string)
    | Other(text: string)

  /** Go's `http.StatusText`: the reason phrase, or "" for an unknown code. */
  function StatusText(code: int): string {
    match code
    case 100 => "Continue"
    case 101 => "Switching Protocols"
    case 102 => "Processing"
    case 103 => "Early Hints"
    case 200 => "OK"
    case 201 => "Created"
    case 202 => "Accepted"
    case 203 => "Non-Authoritative Information"
    case 204 => "No Content"
    case 205 => "Reset Content"
    case 206 => "Partial Content"
    case 207 => "Multi-Status"
    case 208 => "Already Reported"
    case 226 => "IM Used"
    case 300 => "Multiple Choices"
    case 301 => "Moved Permanently"
    case 302 => "Found"
    case 303 => "See Other"
    case 304 => "Not Modified"
    case 305 => "Use Proxy"
    case 307 => "Temporary Redirect"
    case 308 => "Permanent Redirect"
    case 400 => "Bad Request"
    case 401 => "Unauthorized"
    case 402 => "Payment Required"
    case 403 => "Forbidden"
    case 404 => "Not Found"
    case 405 => "Method Not Allowed"
    case 406 => "Not Acceptable"
    case 407 => "Proxy Authentication Required"
    case 408 => "Request Timeout"
    case 409 => "Conflict"
    case 410 => "Gone"
    case 411 => "Length Required"
    case 412 => "Precondition Failed"
    case 413 => "Request Entity Too Large"
    case 414 => "Request URI Too Long"
    case 415 => "Unsupported Media Type"
    case 416 => "Requested Range Not Satisfiable"
    case 417 => "Expectation Failed"
    case 418 => "I'm a teapot"
    case 421 => "Misdirected Request"
    case 422 => "Unprocessable Entity"
    case 423 => "Locked"
    case 424 => "Failed Dependency"
    case 425 => "Too Early"
    case 426 => "Upgrade Required"
    case 428 => "Precondition Required"
    case 429 => "Too Many Requests"
    case 431 => "Request Header Fields Too Large"
    case 451 => "Unavailable For Legal Reasons"
    case 500 => "Internal Server Error"
    case 501 => "Not Implemented"
    case 502 => "Bad Gateway"
    case 503 => "Service Unavailable"
    case 504 => "Gateway Timeout"
    case 505 => "HTTP Version Not Supported"
    case 506 => "Variant Also Negotiates"
    case 507 => "Insufficient Storage"
    case 508 => "Loop Detected"
    case 510 => "Not Extended"
    case 511 => "Network Authentication Required"
    case _ => ""
  }

  /** `(*ApiError).Error`: the status text, then ": " and the reason when
      there is one. */
  function ErrorText(e: ApiError): (r: string)
    ensures e.reason == [] ==> r == StatusText(e.status)
    ensures e.reason != [] ==>
      |r| == |StatusText(e.status)| + 2 + |e.reason| &&
      r[..|StatusText(e.status)|] == StatusText(e.status) &&
      r[|StatusText(e.status)|..|StatusText(e.status)| + 2] == ": " &&
      r[|StatusText(e.status)| + 2..] == e.reason
  {
    if e.reason != [] then StatusText(e.status) + ": " + e.reason else StatusText(e.status)
  }

  /** The reason can be read back from the text whenever there is one. */
  lemma ErrorTextReason(e: ApiError)
    requires e.reason != []
    ensures ErrorText(e)[|StatusText(e.status)| + 2..] == e.reason
    ensures ErrorText(ApiError(e.status, [])) != ErrorText(e)
  {
  }

  // ---------------------------------------------------------------------
  // Constructors (errors.go:49-79)

  function BadRequest(reason: string): (r: ApiError)
    ensures r.status == 400 && StatusText(r.status) == "Bad Request" && r.reason == reason
  {
    ApiError(400, reason)
  }

  function Unauthorized(reason: string): (r: ApiError)
    ensures r.status == 401 && StatusText(r.status) == "Unauthorized" && r.reason == reason
  {
    ApiError(401, reason)
  }

  function Forbidden(reason: string): (r: ApiError)
    ensures r.status == 403 && StatusText(r.status) == "Forbidden" && r.reason == reason
  {
    ApiError(403, reason)
  }

  function NotFound(reason: string): (r: ApiError)
    ensures r.status == 404 && StatusText(r.status) == "Not Found" && r.reason == reason
  {
    ApiError(404, reason)
  }

  function UnprocessableEntity(reason: string): (r: ApiError)
    ensures r.status == 422 && StatusText(r.status) == "Unprocessable Entity" && r.reason == reason
  {
    ApiError(422, reason)
  }

  function FailedDependency(reason: string): (r: ApiError)
    ensures r.status == 424 && StatusText(r.status) == "Failed Dependency" && r.reason == reason
  {
    ApiError(424, reason)
  }

  function InternalServerError(reason: string): (r: ApiError)
    ensures r.status == 500 && StatusText(r.status) == "Internal Server Error" && r.reason == reason
  {
    ApiError(500, reason)
  }

  function NotImplemented(reason: string): (r: ApiError)
    ensures r.status == 501 && StatusText(r.status) == "Not Implemented" && r.reason == reason
  {
    ApiError(501, reason)
  }

  /** The fixed reason given to errors of unknown kind, so that their own
      message never reaches the client. */
  const HiddenReason: string := "internal server error"

  /** `Normalize`: nil stays nil; an API error is kept as it is; an HTTP
      error from httpcomm becomes 404, 403 or (for any other status) 424
      with its text as the reason; anything else becomes 500 with a fixed
      reason. */
  function Normalize(err: Option<AppError>): (r: Option<ApiError>)
    ensures err.None? <==> r.None?
    ensures err.Some? && err.value.Api? ==> r == Some(err.value.api)
    ensures err.Some? && err.value.Http? ==>
      r.Some? && r.value.reason == err.value.text &&
      (r.value.status == 404 <==> err.value.statusCode == 404) &&
      (r.value.status == 403 <==> err.value.statusCode == 403) &&
      (r.value.status == 424 <==> err.value.statusCode != 404 && err.value.statusCode != 403)
    ensures err.Some? && err.value.Other? ==> r == Some(InternalServerError(HiddenReason))
  {
    match err
    case None => None
    case Some(Api(e)) => Some(e)
    case Some(Http(code, text)) =>
      if code == 404 then Some(NotFound(text))
      else if code == 403 then Some(Forbidden(text))
      else Some(FailedDependency(text))
    case Some(Other(_)) => Some(InternalServerError(HiddenReason))
  }

  /** A normalised error has the API error's own status or one of 403, 404,
      424 and 500, and never carries the message of an unknown error. */
  lemma NormalizeStatus(err: AppError)
    ensures var r := Normalize(Some(err)).value;
      (err.Api? && r.status == err.api.status) || r.status in {403, 404, 424, 500}
    ensures !err.Api? ==> StatusText(Normalize(Some(err)).value.status) != ""
    ensures err.Other? ==> Normalize(Some(err)).value.reason == HiddenReason
  {
  }

  /** Normalising an already normalised error changes nothing. */
  lemma NormalizeIdempotent(err: AppError)
    ensures Normalize(Some(Api(Normalize(Some(err)).value))) == Normalize(Some(err))
  {
  }
}
