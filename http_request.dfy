/** httpcomm/request.go: building a request from an `HTTPRequest` (its
    headers, then the bearer token of section 2.1 of RFC 6750 set last) and
    `Call`, which sends it and classifies the answer: a 2xx status is a
    response, any other status an `HTTPError`. Headers are an exact-key map
    (no canonicalisation). The request constructor's refusal and the
    transport (`HttpDoer.Do` followed by reading the body) are given as
    parameters. */
module HttpRequest {
  import opened Wrappers

  type Headers = map<string, string>

  const Authorization: string := "Authorization"

  /** The caller's description of a request; `token` is the optional bearer token. */
  datatype HTTPRequest = HTTPRequest(verb: string, url: string, body: string, headers: Headers, token: Option<string>)

  /** An `*http.Request` as far as the model needs it. */
  datatype Request = Request(verb: string, url: string, body: string, header: Headers)

  /** What the transport does with a request: fails, or answers with a
      status and a body that reads fully or fails to read. */
  datatype Exchange = TransportFailed(err: string) | Answered(status: int, body: Result<string, string>)

  /** The header value for a bearer token. */
  function Bearer(token: string): string {
    "Bearer " + token
  }

  /** The headers of the request: every given header, then the bearer
      token, which replaces any `Authorization` among them. */
  function WithToken(headers: Headers, token: Option<string>): (h: Headers)
    ensures token.None? ==> h == headers
    ensures token.Some? ==> Authorization in h && h[Authorization] == Bearer(token.value)
    ensures h.Keys == headers.Keys + (if token.Some? then {Authorization} else {})
    ensures forall k :: k in headers && k != Authorization ==> h[k] == headers[k]
  {
    if token.Some? then headers[Authorization := Bearer(token.value)] else headers
  }

  /** `CreateRequest`: `constructError` is `http.NewRequestWithContext`'s
      refusal, returned with no request; otherwise the headers are set one
      by one, in whatever order the map yields them, and the token last. */
  method CreateRequest(r: HTTPRequest, constructError: Option<string>) returns (result: Result<Request, string>)
    ensures constructError.Some? ==> result == Failure(constructError.value)
    ensures constructError.None? ==> result == Success(Request(r.verb, r.url, r.body, WithToken(r.headers, r.token)))
  {
    if constructError.Some? {
      return Failure(constructError.value);
    }
    var header: Headers := map[];
    var remaining := r.headers.Keys;
    while remaining != {}
      invariant remaining <= r.headers.Keys
      invariant header.Keys == r.headers.Keys - remaining
      invariant forall k :: k in header ==> header[k] == r.headers[k]
      decreases remaining
    {
      var key :| key in remaining;
      header := header[key := r.headers[key]];
      remaining := remaining - {key};
    }
    assert header == r.headers;
    if r.token.Some? {
      header := header[Authorization := Bearer(r.token.value)];
    }
    return Success(Request(r.verb, r.url, r.body, header));
  }

  /** `HTTPResponse`: the status and the whole body. */
  datatype HTTPResponse = HTTPResponse(statusCode: int, body: string)

  /** Why `Call` gives no response: the request could not be built, the
      transport failed, the body could not be read, or the status was not
      2xx (`HTTPError`, with the status and the body). */
  datatype CallError =
    | RequestError(err: string)
    | TransportError(err: string)
    | ReadError(err: string)
    | HTTPError(statusCode: int, body: string)

  predicate Successful(status: int) {
    200 <= status <= 299
  }

  /** The classification of a fully read answer. */
  function Classify(status: int, body: string): (r: Result<HTTPResponse, CallError>)
    ensures r.Success? <==> Successful(status)
    ensures r.Success? ==> r.value == HTTPResponse(status, body)
    ensures r.Failure? ==> r.error == HTTPError(status, body)
  {
    if status < 200 || status > 299 then Failure(HTTPError(status, body))
    else Success(HTTPResponse(status, body))
  }

  /** What `Call` makes of the transport's answer: its failure, then a body
      that cannot be read, whatever the status, then the classification. */
  function Received(answer: Exchange): (r: Result<HTTPResponse, CallError>)
    ensures answer.TransportFailed? ==> r == Failure(TransportError(answer.err))
    ensures answer.Answered? && answer.body.Failure? ==> r == Failure(ReadError(answer.body.error))
    ensures answer.Answered? && answer.body.Success? ==> r == Classify(answer.status, answer.body.value)
    ensures r.Success? ==> answer.Answered? && Successful(answer.status) && answer.body == Success(r.value.body)
  {
    match answer
    case TransportFailed(e) => Failure(TransportError(e))
    case Answered(_, Failure(e)) => Failure(ReadError(e))
    case Answered(status, Success(body)) => Classify(status, body)
  }

  /** `Call`: builds the request, hands it to the transport `send`, then
      reads the body before looking at the status. */
  method Call(r: HTTPRequest, constructError: Option<string>, send: Request -> Exchange)
    returns (result: Result<HTTPResponse, CallError>)
    ensures constructError.Some? ==> result == Failure(RequestError(constructError.value))
    ensures constructError.None? ==> result == Received(send(Request(r.verb, r.url, r.body, WithToken(r.headers, r.token))))
  {
    var req := CreateRequest(r, constructError);
    if req.Failure? {
      return Failure(RequestError(req.error));
    }
    var answer := send(req.value);
    if answer.TransportFailed? {
      return Failure(TransportError(answer.err));
    }
    var statusCode := answer.status;
    if answer.body.Failure? {
      return Failure(ReadError(answer.body.error));
    }
    var body := answer.body.value;
    if statusCode < 200 || statusCode > 299 {
      return Failure(HTTPError(statusCode, body));
    }
    return Success(HTTPResponse(statusCode, body));
  }

  /** A 404 is an error carrying the status and the body, not a response. */
  lemma NotFoundIsError()
    ensures Classify(404, "NOT FOUND") == Failure(HTTPError(404, "NOT FOUND"))
    ensures Classify(200, "OK") == Success(HTTPResponse(200, "OK"))
  {
  }
}
