/** The parts of gin and zerolog the middlewares touch, reduced to the state
    they change: a request context holding the errors recorded by handlers,
    the abort flag and what its response writer has sent, and a log that
    records entries in order. The handlers further down the chain are a
    value saying what they do to that state. */
module Gin {
  import opened Wrappers

  /** A JSON document as gin renders it; object members keep their order. */
  datatype Json =
    | JNull
    | JBool(b: bool)
    | JInt(i: int)
    | JString(s: string)
    | JArray(items: seq<Json>)
    | JObject(members: seq<(string, Json)>)

  /** zerolog's levels, least to most severe. */
  datatype Level = Trace | Debug | Info | Warn | Error | Fatal

  /** One log entry: its level, its message and the text of the attached
      error; with `.Stack()`, also the error's stack as the installed
      `ErrorStackMarshaler` renders it, one string map per frame. */
  datatype Entry =
    | Entry(level: Level, message: string, err: string)
    | StackEntry(level: Level, message: string, err: string, stack: seq<map<string, string>>)

  class Logger {
    var entries: seq<Entry>

    constructor ()
      ensures entries == []
    {
      entries := [];
    }

    method Log(level: Level, message: string, err: string)
      modifies this
      ensures entries == old(entries) + [Entry(level, message, err)]
    {
      entries := entries + [Entry(level, message, err)];
    }

    /** An entry logged with `.Stack()`: the marshalled stack goes with it. */
    method LogStack(level: Level, message: string, err: string, stack: seq<map<string, string>>)
      modifies this
      ensures entries == old(entries) + [StackEntry(level, message, err, stack)]
    {
      entries := entries + [StackEntry(level, message, err, stack)];
    }
  }

  /** A response a handler renders: its status and its JSON body. */
  datatype Response = Response(status: int, body: Json)

  /** One write to gin's `responseWriter`: a rendered body with its status
      (`c.IndentedJSON`), or the status alone sent at once
      (`c.AbortWithStatus`, through `WriteHeaderNow`). */
  datatype Write = Render(status: int, body: Json) | HeaderNow(status: int)

  /** What has gone out to the client: the status sent by the first write
      and every body rendered since, in order. */
  datatype Sent = Sent(status: int, bodies: seq<Json>)

  /** The bodies a sequence of writes renders, in order. */
  function Bodies(ws: seq<Write>): (r: seq<Json>)
    ensures |r| <= |ws|
  {
    if ws == [] then []
    else (if ws[0].Render? then [ws[0].body] else []) + Bodies(ws[1..])
  }

  /** `responseWriter` after one more write: the first write sends its
      status; once something is sent, `WriteHeader` ignores any new status
      and a rendered body is appended to what went out. */
  function Written(sent: Option<Sent>, w: Write): (r: Sent)
    ensures sent.Some? ==> r.status == sent.value.status
    ensures sent.None? ==> r.status == w.status
    ensures r.bodies == (if sent.Some? then sent.value.bodies else []) + (if w.Render? then [w.body] else [])
  {
    var before := if sent.Some? then sent.value.bodies else [];
    var status := if sent.Some? then sent.value.status else w.status;
    match w
    case Render(_, body) => Sent(status, before + [body])
    case HeaderNow(_) => Sent(status, before)
  }

  /** `responseWriter` after a sequence of writes, in order. */
  function WriteAll(sent: Option<Sent>, ws: seq<Write>): Option<Sent>
    decreases |ws|
  {
    if ws == [] then sent else WriteAll(Some(Written(sent, ws[0])), ws[1..])
  }

  /** Whatever the writes, the status that goes out is that of the first
      write ever made, and the bodies are all those rendered, in order;
      nothing goes out without a write. */
  lemma {:induction false} WriteAllSends(sent: Option<Sent>, ws: seq<Write>)
    ensures WriteAll(sent, ws).Some? <==> sent.Some? || ws != []
    ensures sent.Some? ==> WriteAll(sent, ws) == Some(Sent(sent.value.status, sent.value.bodies + Bodies(ws)))
    ensures sent.None? && ws != [] ==> WriteAll(sent, ws) == Some(Sent(ws[0].status, Bodies(ws)))
    decreases |ws|
  {
    if ws != [] {
      var next := Written(sent, ws[0]);
      WriteAllSends(Some(next), ws[1..]);
      assert Bodies(ws) == (if ws[0].Render? then [ws[0].body] else []) + Bodies(ws[1..]);
      if sent.None? {
        assert next.bodies + Bodies(ws[1..]) == Bodies(ws);
      } else {
        assert next.bodies + Bodies(ws[1..]) == sent.value.bodies + Bodies(ws);
      }
    } else if sent.Some? {
      assert sent.value.bodies + Bodies(ws) == sent.value.bodies;
    }
  }

  /** What the handlers after the current one do to the context: the errors
      they record, whether they abort, and the writes they make, in order. */
  datatype Downstream<E> = Downstream(errors: seq<E>, aborts: bool, writes: seq<Write>)

  /** `*gin.Context`, reduced to `c.Errors`, `c.IsAborted()` and what its
      `responseWriter` has sent. */
  class Context<E> {
    var errors: seq<E>
    var aborted: bool
    var response: Option<Sent>

    constructor ()
      ensures errors == [] && !aborted && response == None
    {
      errors := [];
      aborted := false;
      response := None;
    }

    /** `c.Next()`: runs the rest of the chain. */
    method Next(rest: Downstream<E>)
      modifies this
      ensures errors == old(errors) + rest.errors
      ensures aborted == (old(aborted) || rest.aborts)
      ensures response == WriteAll(old(response), rest.writes)
    {
      errors := errors + rest.errors;
      aborted := aborted || rest.aborts;
      response := WriteAll(response, rest.writes);
    }

    /** `c.IndentedJSON(status, body)`: the status goes out only if nothing
        was sent before; the body is appended either way. */
    method IndentedJSON(status: int, body: Json)
      modifies this
      ensures response == Some(Written(old(response), Render(status, body)))
      ensures old(response).None? ==> response == Some(Sent(status, [body]))
      ensures old(response).Some? ==> response.value.status == old(response).value.status
      ensures errors == old(errors) && aborted == old(aborted)
    {
      assert [] + [body] == [body];
      response := Some(Written(response, Render(status, body)));
    }

    /** `c.Abort()`. */
    method Abort()
      modifies this
      ensures aborted
      ensures errors == old(errors) && response == old(response)
    {
      aborted := true;
    }

    /** `c.AbortWithStatus(status)`: sends the status with no body, unless
        something was sent already, which then stands. */
    method AbortWithStatus(status: int)
      modifies this
      ensures aborted && response == Some(Written(old(response), HeaderNow(status)))
      ensures old(response).None? ==> response == Some(Sent(status, []))
      ensures old(response).Some? ==> response == old(response)
      ensures errors == old(errors)
    {
      response := Some(Written(response, HeaderNow(status)));
      aborted := true;
    }
  }

  // ---------------------------------------------------------------------
  // The engine: middleware, routes and shutdown callbacks

  /** The CORS settings the engines change from `cors.DefaultConfig()`. */
  datatype CorsConfig = CorsConfig(allowCredentials: bool, allowAllOrigins: bool, allowHeaders: seq<string>, addedMethods: seq<string>)

  /** The middleware an engine installs, in the order of installation. */
  datatype Middleware =
    | ErrorHandlerMiddleware
    | AccessLogger(skipAllPaths: bool)
    | Cors(config: CorsConfig)
    | PanicRecovery
    | GinRecovery
    | ServerSpans(service: string)

  /** A handler, named by what it serves. */
  datatype Handler = SpecJson | SwaggerUi | HandlerFunc(name: string)

  /** A registered route: the group it is added to, the HTTP verb, the
      path relative to the group and the handler chain. */
  datatype Route = Route(group: string, verb: string, path: string, handlers: seq<Handler>)

  /** An OpenTelemetry tracer provider: the X-Ray default or one given by the caller. */
  datatype Provider = XRayTracerProvider | GivenProvider(name: string)

  datatype Propagator = XRayPropagator | GivenPropagator(name: string)

  /** A shutdown callback: the tracer provider's shutdown or one registered by the caller. */
  datatype Callback = ShutdownTracer | UserCallback(name: string)

  /** The order deferred calls run in: last registered first. */
  function Reversed<T>(s: seq<T>): (r: seq<T>)
    ensures |r| == |s|
    ensures forall i :: 0 <= i < |s| ==> r[i] == s[|s| - 1 - i]
  {
    if s == [] then [] else Reversed(s[1..]) + [s[0]]
  }

  /** Every callback runs exactly once. */
  lemma ReversedPermutes<T>(s: seq<T>)
    ensures multiset(Reversed(s)) == multiset(s)
  {
    if s != [] {
      ReversedPermutes(s[1..]);
      assert s == [s[0]] + s[1..];
    }
  }
}
