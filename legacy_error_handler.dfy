/** The JSON error-reporting middleware of the older `ginruntime` package
    (ginruntime/errorHandler.go). */
module LegacyErrorHandler {
  import opened Wrappers
  import opened Text
  import opened Gin
  import opened LegacyErrors

  /** The entry `logError` writes for the parsed error. */
  function LogEntry(parsed: ApiError): (r: Entry)
    ensures r.level == LogLevel(parsed.code) && r.err == parsed.message
  {
    Entry(LogLevel(parsed.code), "An error occured, which will cause a " + IntText(parsed.code) + " response", parsed.message)
  }

  /** The response for the recorded errors: none when there are none,
      otherwise the first error, parsed, with its code as the status. */
  function ErrorResponse(errors: seq<LegacyError>): (r: Option<Response>)
    ensures errors == [] <==> r.None?
    ensures errors != [] ==> r.value.status == ParseError(errors[0]).code
  {
    if errors == [] then None
    else
      var parsed := ParseError(errors[0]);
      Some(Response(parsed.code, ApiErrorJson(parsed)))
  }

  /** Only the first error is considered. */
  lemma FirstErrorWins(first: LegacyError, rest: seq<LegacyError>, other: seq<LegacyError>)
    ensures ErrorResponse([first] + rest) == ErrorResponse([first] + other)
  {
    assert ([first] + rest)[0] == first && ([first] + other)[0] == first;
  }

  /** An `ApiError` value answers with its own code and message; a `DbError`
      answers 500 with its message; a pointer or an `UnauthorizedError`
      answers 500 "Internal Server Error". */
  lemma ErrorResponseExamples(api: ApiError, dbCode: int, wrapped: string)
    ensures ErrorResponse([ApiValue(api)]).value.status == api.code
    ensures ErrorResponse([ApiValue(api)]).value.body == JObject([("code", JInt(api.code)), ("message", JString(api.message))])
    ensures ErrorResponse([Db(dbCode, wrapped)]).value == Response(500, JObject([("code", JInt(500)), ("message", JString(wrapped))]))
    ensures ErrorResponse([ApiPointer(api)]).value.status == 500
    ensures ErrorResponse([UnauthorizedError]).value.body ==
      JObject([("code", JInt(500)), ("message", JString("Internal Server Error"))])
  {
  }

  /** `jsonErrorReporter(gin.ErrorTypeAny)`: runs the rest of the chain;
      leaves an aborted request or one without errors as the chain left it;
      otherwise logs the parsed first error, writes it as the response with
      its code as the status, and aborts. */
  method JsonErrorReporter(c: Context<LegacyError>, log: Logger, rest: Downstream<LegacyError>)
    modifies c, log
    ensures c.errors == old(c.errors) + rest.errors
    ensures old(c.aborted) || rest.aborts || c.errors == [] ==>
      c.aborted == (old(c.aborted) || rest.aborts) &&
      c.response == WriteAll(old(c.response), rest.writes) &&
      log.entries == old(log.entries)
    ensures !old(c.aborted) && !rest.aborts && c.errors != [] ==>
      var r := ErrorResponse(c.errors).value;
      c.aborted && c.response == Some(Written(WriteAll(old(c.response), rest.writes), Render(r.status, r.body))) &&
      log.entries == old(log.entries) + [LogEntry(ParseError(c.errors[0]))]
  {
    c.Next(rest);
    if c.aborted {
      return;
    }
    var errorList := c.errors;
    if |errorList| < 1 {
      return;
    }
    var parsed := ParseError(errorList[0]);
    var entry := LogEntry(parsed);
    log.Log(entry.level, entry.message, entry.err);
    c.IndentedJSON(parsed.code, ApiErrorJson(parsed));
    c.Abort();
  }

  /** What goes out when the middleware answers for `errors` after the
      chain made the writes `ws` on a response that had sent `sent`: the
      error response alone when nothing was sent before, and otherwise the
      status first sent, with the error body appended to the earlier ones,
      since gin ignores a new status once a response is written. */
  lemma ReportedResponse(sent: Option<Sent>, ws: seq<Write>, errors: seq<LegacyError>)
    requires errors != []
    ensures var e := ErrorResponse(errors).value;
      var r := Written(WriteAll(sent, ws), Render(e.status, e.body));
      (sent.None? && ws == [] ==> r == Sent(e.status, [e.body])) &&
      (sent.Some? ==> r == Sent(sent.value.status, sent.value.bodies + Bodies(ws) + [e.body])) &&
      (sent.None? && ws != [] ==> r == Sent(ws[0].status, Bodies(ws) + [e.body]))
  {
    WriteAllSends(sent, ws);
    assert [] + [ErrorResponse(errors).value.body] == [ErrorResponse(errors).value.body];
  }
}
