/** httpcomm/client.go: a `Client` holding a parsed base URL, default
    headers and a tracing switch, whose `Post`, `Put`, `Get` and `Delete`
    fill the request's headers step by step and whose `callEndpoint`
    accepts status 200 only. `url.Parse`, `http.NewRequestWithContext` and
    the transport are given as parameters; the request and the transport's
    answer are those of `HttpRequest`. */
module HttpClient {
  import opened Wrappers
  import opened Text
  import opened HttpRequest

  const ContentType: string := "Content-Type"

  /** The timeout of the `http.Client` every `Client` gets, in seconds. */
  const TimeoutSeconds: int := 30

  /** Why a call of the client returns no body. */
  datatype ClientError =
    | BuildError(err: string)
    | SendFailed(err: string)
    | StatusError(message: string)
    | BodyUnread(err: string)

  /** The error text for a status other than 200. */
  function StatusMessage(status: int, url: string): string {
    "status code=" + IntText(status) + ", URL=" + url
  }

  /** The headers a call sends: `Content-Type` first when the verb carries a
      body, then every default header (which may replace it), then the
      bearer token. */
  function CallHeaders(contentType: Option<string>, defaults: Headers, token: Option<string>): (h: Headers)
    ensures token.Some? ==> Authorization in h && h[Authorization] == Bearer(token.value)
    ensures forall k :: k in defaults && k != Authorization ==> k in h && h[k] == defaults[k]
    ensures ContentType !in defaults ==>
      (contentType.Some? ==> ContentType in h && h[ContentType] == contentType.value) &&
      (contentType.None? ==> ContentType !in h)
    ensures h.Keys == defaults.Keys + (if contentType.Some? then {ContentType} else {}) + (if token.Some? then {Authorization} else {})
  {
    var initial := if contentType.Some? then map[ContentType := contentType.value] else map[];
    WithToken(initial + defaults, token)
  }

  class Client {
    /** The parsed base URL, as its text. */
    var baseURL: string
    var headers: Headers
    var tracing: bool
    /** The timeout of the underlying `http.Client`, in seconds. */
    var timeout: int

    constructor (baseURL: string, headers: Headers, tracing: bool)
      ensures this.baseURL == baseURL && this.headers == headers && this.tracing == tracing
      ensures timeout == TimeoutSeconds
    {
      this.baseURL := baseURL;
      this.headers := headers;
      this.tracing := tracing;
      timeout := TimeoutSeconds;
    }

    /** The headers of one call, set one at a time as the methods do. */
    method FillHeaders(contentType: Option<string>, token: Option<string>) returns (h: Headers)
      ensures h == CallHeaders(contentType, headers, token)
    {
      h := map[];
      if contentType.Some? {
        h := h[ContentType := contentType.value];
      }
      ghost var initial := h;
      var remaining := headers.Keys;
      while remaining != {}
        invariant remaining <= headers.Keys
        invariant h.Keys == initial.Keys + (headers.Keys - remaining)
        invariant forall k :: k in h ==> h[k] == if k in headers && k !in remaining then headers[k] else initial[k]
        decreases remaining
      {
        var key :| key in remaining;
        h := h[key := headers[key]];
        remaining := remaining - {key};
      }
      assert h == initial + headers;
      if token.Some? {
        h := h[Authorization := Bearer(token.value)];
      }
    }

    /** `callEndpoint`: the transport's failure; then a status other than
        200 is an error naming the status and the URL, before any body is
        read; then a body that cannot be read. */
    method CallEndpoint(req: Request, send: Request -> Exchange) returns (result: Result<string, ClientError>)
      ensures result == Endpoint(req, send(req))
    {
      var answer := send(req);
      if answer.TransportFailed? {
        return Failure(SendFailed(answer.err));
      }
      var statusCode := answer.status;
      if statusCode != 200 {
        return Failure(StatusError(StatusMessage(statusCode, req.url)));
      }
      if answer.body.Failure? {
        return Failure(BodyUnread(answer.body.error));
      }
      return Success(answer.body.value);
    }

    /** A call of any verb: `buildError` is the refusal of
        `http.NewRequestWithContext`. */
    method Send(verb: string, resourceURL: string, body: string, contentType: Option<string>, token: Option<string>,
                buildError: Option<string>, send: Request -> Exchange) returns (result: Result<string, ClientError>)
      ensures buildError.Some? ==> result == Failure(BuildError(buildError.value))
      ensures buildError.None? ==>
        var req := Request(verb, resourceURL, body, CallHeaders(contentType, headers, token));
        result == Endpoint(req, send(req))
    {
      if buildError.Some? {
        return Failure(BuildError(buildError.value));
      }
      var h := FillHeaders(contentType, token);
      result := CallEndpoint(Request(verb, resourceURL, body, h), send);
    }

    /** `Post`: with a body and its content type. */
    method Post(resourceURL: string, body: string, contentType: string, token: Option<string>,
                buildError: Option<string>, send: Request -> Exchange) returns (result: Result<string, ClientError>)
      ensures buildError.Some? ==> result == Failure(BuildError(buildError.value))
      ensures buildError.None? ==>
        var req := Request("POST", resourceURL, body, CallHeaders(Some(contentType), headers, token));
        result == Endpoint(req, send(req))
    {
      result := Send("POST", resourceURL, body, Some(contentType), token, buildError, send);
    }

    /** `Put`: with a body and its content type. */
    method Put(resourceURL: string, body: string, contentType: string, token: Option<string>,
               buildError: Option<string>, send: Request -> Exchange) returns (result: Result<string, ClientError>)
      ensures buildError.Some? ==> result == Failure(BuildError(buildError.value))
      ensures buildError.None? ==>
        var req := Request("PUT", resourceURL, body, CallHeaders(Some(contentType), headers, token));
        result == Endpoint(req, send(req))
    {
      result := Send("PUT", resourceURL, body, Some(contentType), token, buildError, send);
    }

    /** `Get`: no body and no `Content-Type` of its own. */
    method Get(resourceURL: string, token: Option<string>,
               buildError: Option<string>, send: Request -> Exchange) returns (result: Result<string, ClientError>)
      ensures buildError.Some? ==> result == Failure(BuildError(buildError.value))
      ensures buildError.None? ==>
        var req := Request("GET", resourceURL, [], CallHeaders(None, headers, token));
        result == Endpoint(req, send(req))
    {
      result := Send("GET", resourceURL, [], None, token, buildError, send);
    }

    /** `Delete`: no body and no `Content-Type` of its own. */
    method Delete(resourceURL: string, token: Option<string>,
                  buildError: Option<string>, send: Request -> Exchange) returns (result: Result<string, ClientError>)
      ensures buildError.Some? ==> result == Failure(BuildError(buildError.value))
      ensures buildError.None? ==>
        var req := Request("DELETE", resourceURL, [], CallHeaders(None, headers, token));
        result == Endpoint(req, send(req))
    {
      result := Send("DELETE", resourceURL, [], None, token, buildError, send);
    }
  }

  /** What `callEndpoint` makes of the answer to a request. */
  function Endpoint(req: Request, answer: Exchange): (r: Result<string, ClientError>)
    ensures r.Success? <==> answer.Answered? && answer.status == 200 && answer.body.Success?
    ensures r.Success? ==> r.value == answer.body.value
    ensures answer.TransportFailed? ==> r == Failure(SendFailed(answer.err))
    ensures answer.Answered? && answer.status != 200 ==> r == Failure(StatusError(StatusMessage(answer.status, req.url)))
    ensures answer.Answered? && answer.status == 200 && answer.body.Failure? ==> r == Failure(BodyUnread(answer.body.error))
  {
    match answer
    case TransportFailed(e) => Failure(SendFailed(e))
    case Answered(status, body) =>
      if status != 200 then Failure(StatusError(StatusMessage(status, req.url)))
      else if body.Failure? then Failure(BodyUnread(body.error))
      else Success(body.value)
  }

  /** `NewClient`: fails exactly when the base URL does not parse;
      `parsed` is `url.Parse`'s outcome. */
  method NewClient(headers: Headers, tracing: bool, parsed: Result<string, string>) returns (result: Result<Client, string>)
    ensures parsed.Failure? <==> result.Failure?
    ensures parsed.Failure? ==> result.error == parsed.error
    ensures result.Success? ==> fresh(result.value)
    ensures result.Success? ==> result.value.baseURL == parsed.value && result.value.headers == headers
    ensures result.Success? ==> result.value.tracing == tracing && result.value.timeout == TimeoutSeconds
  {
    if parsed.Failure? {
      return Failure(parsed.error);
    }
    var c := new Client(parsed.value, headers, tracing);
    return Success(c);
  }

  /** Unlike `Call` of request.go, which takes every 2xx status, a client
      call takes 200 alone: a 201 with a readable body is a response there
      and an error here. */
  lemma CreatedContrast(req: Request, body: string)
    ensures HttpRequest.Received(Answered(201, Success(body))).Success?
    ensures Endpoint(req, Answered(201, Success(body))) == Failure(StatusError(StatusMessage(201, req.url)))
  {
  }

  /** Distinct statuses give distinct error texts for the same URL. */
  lemma StatusMessageInjective(s1: int, s2: int, url: string)
    requires StatusMessage(s1, url) == StatusMessage(s2, url)
    ensures s1 == s2
  {
    Cancel("status code=", IntText(s1), IntText(s2), ", URL=", url);
    IntTextInjective(s1, s2);
  }

  lemma Cancel(p: string, x: string, y: string, q: string, u: string)
    requires p + x + q + u == p + y + q + u
    ensures x == y
  {
    var m, n := p + x + q + u, p + y + q + u;
    assert |x| == |y|;
    assert m[|p|..|p| + |x|] == x;
    assert n[|p|..|p| + |y|] == y;
  }

  lemma IntTextSign(a: int)
    ensures IntText(a)[0] == '-' <==> a < 0
  {
    if a >= 0 {
      assert '0' <= Decimal(a)[0] <= '9';
    }
  }

  lemma DecimalInjective(m: nat, n: nat)
    requires Decimal(m) == Decimal(n)
    ensures m == n
  {
    DecimalValue(m);
    DecimalValue(n);
  }

  lemma IntTextInjective(a: int, b: int)
    requires IntText(a) == IntText(b)
    ensures a == b
  {
    IntTextSign(a);
    IntTextSign(b);
    if a < 0 {
      assert IntText(a)[1..] == Decimal(-a) && IntText(b)[1..] == Decimal(-b);
      DecimalInjective(-a, -b);
    } else {
      DecimalInjective(a, b);
    }
  }
}
