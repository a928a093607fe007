/** The JSON error-reporting middleware of `aws/ginruntime`
    (aws/ginruntime/errorHandler.go): after the rest of the chain has run,
    the first recorded error decides the response; later errors are only
    logged. */
module ErrorHandler {
  import opened Wrappers
  import opened Text
  import opened Gin
  import opened ApiErrors

  /** The text `Err(e)` attaches to a log entry. */
  function AppErrorText(e: AppError): string {
    match e
    case Api(api) => ErrorText(api)
    case Http(_, text) => text
    case Other(text) => text
  }

  /** The warning logged for the extra error number `i` (counted from 0 after the first). */
  function ExtraErrorEntry(verb: string, url: string, i: nat, e: AppError): Entry {
    Entry(Warn, "More than one error occurred while processing " + verb + " " + url +
      " - see the attached error object (" + Decimal(i) + ")", AppErrorText(e))
  }

  /** The warnings for the extra errors `extra`, numbered from `from`. */
  function ExtraErrorEntries(verb: string, url: string, extra: seq<AppError>, from: nat): (r: seq<Entry>)
    ensures |r| == |extra|
    ensures forall k :: 0 <= k < |r| ==> r[k] == ExtraErrorEntry(verb, url, from + k, extra[k])
  {
    if extra == [] then [] else [ExtraErrorEntry(verb, url, from, extra[0])] + ExtraErrorEntries(verb, url, extra[1..], from + 1)
  }

  /** The level of the final entry: error for a 5xx response or above, warning otherwise. */
  function ResponseLevel(status: int): (l: Level)
    ensures l == Error <==> status >= 500
    ensures l == Warn <==> status < 500
  {
    if status >= 500 then Error else Warn
  }

  function ResponseEntry(e: ApiError): Entry {
    Entry(ResponseLevel(e.status), "An error occured, which will cause a " + IntText(e.status) + " response", ErrorText(e))
  }

  /** The response written for the recorded errors: none when there are none;
      otherwise the first error, normalised, as status and `{"error": text}`. */
  function ErrorResponse(errors: seq<AppError>): (r: Option<Response>)
    ensures errors == [] <==> r.None?
    ensures errors != [] ==> r.value.status == Normalize(Some(errors[0])).value.status
    ensures errors != [] ==> r.value.body == JObject([("error", JString(ErrorText(Normalize(Some(errors[0])).value)))])
  {
    if errors == [] then None
    else
      var n := Normalize(Some(errors[0])).value;
      Some(Response(n.status, JObject([("error", JString(ErrorText(n)))])))
  }

  /** Only the first error matters: errors after it never change the response. */
  lemma FirstErrorWins(first: AppError, rest: seq<AppError>, other: seq<AppError>)
    ensures ErrorResponse([first] + rest) == ErrorResponse([first] + other)
  {
    assert ([first] + rest)[0] == first && ([first] + other)[0] == first;
  }

  /** An unauthorised API error gives 401; an HTTP error 404 or 403 keeps
      its status and any other HTTP status gives 424. */
  lemma ErrorResponseStatuses(reason: string, code: int, text: string)
    ensures ErrorResponse([Api(Unauthorized(reason))]).value.status == 401
    ensures ErrorResponse([Http(404, text)]).value.status == 404
    ensures ErrorResponse([Http(403, text)]).value.status == 403
    ensures code != 404 && code != 403 ==> ErrorResponse([Http(code, text)]).value.status == 424
  {
  }

  /** A plain error gives 500 with the fixed text, whatever its own message. */
  lemma PlainErrorResponse(text: string)
    ensures ErrorResponse([Other(text)]).value ==
      Response(500, JObject([("error", JString("Internal Server Error: internal server error"))]))
  {
    var hidden := InternalServerError(HiddenReason);
    assert ErrorText(hidden) == "Internal Server Error" + ": " + HiddenReason;
    HiddenText();
    assert ErrorResponse([Other(text)]) == Some(Response(500, JObject([("error", JString(ErrorText(hidden)))])));
  }

  lemma HiddenText()
    ensures "Internal Server Error" + ": " + HiddenReason == "Internal Server Error: internal server error"
  {
  }

  lemma ExtraErrorEntriesSnoc(verb: string, url: string, extra: seq<AppError>, e: AppError, from: nat)
    ensures ExtraErrorEntries(verb, url, extra + [e], from) ==
      ExtraErrorEntries(verb, url, extra, from) + [ExtraErrorEntry(verb, url, from + |extra|, e)]
  {
    var lhs := ExtraErrorEntries(verb, url, extra + [e], from);
    var rhs := ExtraErrorEntries(verb, url, extra, from) + [ExtraErrorEntry(verb, url, from + |extra|, e)];
    assert |lhs| == |rhs|;
    forall k | 0 <= k < |lhs|
      ensures lhs[k] == rhs[k]
    {
      if k < |extra| {
        assert (extra + [e])[k] == extra[k];
      }
    }
  }

  /** The loop over the errors after the first: one warning each, in order. */
  method LogExtraErrors(log: Logger, extra: seq<AppError>, verb: string, url: string)
    modifies log
    ensures log.entries == old(log.entries) + ExtraErrorEntries(verb, url, extra, 0)
  {
    var i := 0;
    while i < |extra|
      invariant 0 <= i <= |extra|
      invariant log.entries == old(log.entries) + ExtraErrorEntries(verb, url, extra[..i], 0)
    {
      LogExtraError(log, extra, i, verb, url, old(log.entries));
      i := i + 1;
    }
    assert extra[..i] == extra;
  }

  /** One turn of that loop: the warning for extra error `i`. */
  method LogExtraError(log: Logger, extra: seq<AppError>, i: nat, verb: string, url: string, ghost before: seq<Entry>)
    requires i < |extra| && log.entries == before + ExtraErrorEntries(verb, url, extra[..i], 0)
    modifies log
    ensures log.entries == before + ExtraErrorEntries(verb, url, extra[..i + 1], 0)
  {
    var warning := ExtraErrorEntry(verb, url, i, extra[i]);
    ExtraErrorEntriesPrefix(verb, url, extra, i);
    log.Log(warning.level, warning.message, warning.err);
  }

  /** The warnings for the first `i + 1` extra errors are those for the
      first `i` and the warning for error `i`. */
  lemma ExtraErrorEntriesPrefix(verb: string, url: string, extra: seq<AppError>, i: nat)
    requires i < |extra|
    ensures ExtraErrorEntries(verb, url, extra[..i + 1], 0) ==
      ExtraErrorEntries(verb, url, extra[..i], 0) + [Entry(Warn, ExtraErrorEntry(verb, url, i, extra[i]).message, ExtraErrorEntry(verb, url, i, extra[i]).err)]
  {
    ExtraErrorEntriesSnoc(verb, url, extra[..i], extra[i], 0);
    assert extra[..i] + [extra[i]] == extra[..i + 1];
  }

  /** Everything the middleware logs for a non-empty error list: a warning
      per extra error, then the response entry for the first error. */
  function ReportEntries(verb: string, url: string, errors: seq<AppError>): seq<Entry>
    requires errors != []
  {
    ExtraErrorEntries(verb, url, errors[1..], 0) + [ResponseEntry(Normalize(Some(errors[0])).value)]
  }

  /** `jsonErrorReporter(gin.ErrorTypeAny)` for a request `verb url`: runs
      the rest of the chain; leaves an aborted request or one without
      errors as the chain left it; otherwise logs a warning per extra error,
      logs the response at error level for 5xx and warning level below,
      writes the response for the first error and aborts. */
  method JsonErrorReporter(c: Context<AppError>, log: Logger, rest: Downstream<AppError>, verb: string, url: string)
    modifies c, log
    ensures c.errors == old(c.errors) + rest.errors
    ensures old(c.aborted) || rest.aborts || c.errors == [] ==>
      c.aborted == (old(c.aborted) || rest.aborts) &&
      c.response == WriteAll(old(c.response), rest.writes) &&
      log.entries == old(log.entries)
    ensures !old(c.aborted) && !rest.aborts && c.errors != [] ==>
      var r := ErrorResponse(c.errors).value;
      c.aborted && c.response == Some(Written(WriteAll(old(c.response), rest.writes), Render(r.status, r.body))) &&
      log.entries == old(log.entries) + ReportEntries(verb, url, c.errors)
  {
    c.Next(rest);
    var errorList := c.errors;
    if c.aborted {
      return;
    }
    if |errorList| < 1 {
      return;
    }
    Report(c, log, verb, url);
  }

  /** The reporting part of `jsonErrorReporter`, on
      a request that recorded errors: logs a warning per extra error, then
      the response entry, writes the first error's response and aborts. */
  method Report(c: Context<AppError>, log: Logger, verb: string, url: string)
    requires c.errors != []
    modifies c, log
    ensures c.errors == old(c.errors) && c.aborted
    ensures var r := ErrorResponse(c.errors).value;
      c.response == Some(Written(old(c.response), Render(r.status, r.body)))
    ensures log.entries == old(log.entries) + ReportEntries(verb, url, c.errors)
  {
    var errorList := c.errors;
    var responseErr := Normalize(Some(errorList[0])).value;
    LogExtraErrors(log, errorList[1..], verb, url);
    var entry := ResponseEntry(responseErr);
    log.Log(entry.level, entry.message, entry.err);
    var response := ErrorResponse(errorList).value;
    c.IndentedJSON(response.status, response.body);
    c.Abort();
  }

  /** What goes out when the middleware answers for `errors` after the
      chain made the writes `ws` on a response that had sent `sent`: the
      error response alone when nothing was sent before, and otherwise the
      status first sent, with the error body appended to the earlier ones,
      since gin ignores a new status once a response is written. */
  lemma ReportedResponse(sent: Option<Sent>, ws: seq<Write>, errors: seq<AppError>)
    requires errors != []
    ensures var e := ErrorResponse(errors).value;
      var r := Written(WriteAll(sent, ws), Render(e.status, e.body));
      (sent.None? && ws == [] ==> r == Sent(e.status, [e.body])) &&
      (sent.Some? ==> r == Sent(sent.value.status, sent.value.bodies + Bodies(ws) + [e.body])) &&
      (sent.None? && ws != [] ==> r == Sent(ws[0].status, Bodies(ws) + [e.body]))
  {
    WriteAllSends(sent, ws);
    assert [] + [ErrorResponse(errors).value.body] == [ErrorResponse(errors).value.body];
  }
}
