/** The engine of aws/ginruntime/ginruntime.go and its options
    (aws/ginruntime/options.go): `New` installs the global middleware and
    applies only the OpenAPI part of the options; `apply` enables every
    tracing option before any OpenAPI option; shutdown callbacks run last
    registered first. The environment is a map; `log.Fatal`, which ends the
    process, is an outcome. */
module GinRuntime {
  import opened Wrappers
  import opened Text
  import opened Gin
  import OpenApiDoc
  import Routing
  import GinOpenApi

  // ---------------------------------------------------------------------
  // Logging configuration (ginruntime.go:77-117)

  /** `os.Getenv`: "" for an unset variable. */
  function Getenv(env: map<string, string>, key: string): string {
    if key in env then env[key] else ""
  }

  /** `IsRunningAsLambda`. */
  function IsRunningAsLambda(env: map<string, string>): (r: bool)
    ensures r <==> "AWS_LAMBDA_FUNCTION_NAME" in env && env["AWS_LAMBDA_FUNCTION_NAME"] != []
  {
    Getenv(env, "AWS_LAMBDA_FUNCTION_NAME") != ""
  }

  /** The level `configureLogging` picks from the value of LOG_LEVEL. */
  function LevelFor(value: string): (l: Level)
    ensures l == Debug <==> value == "DEBUG"
    ensures l == Error <==> value == "ERROR"
    ensures l == Trace <==> value == "TRACE"
    ensures l == Info <==> value != "DEBUG" && value != "ERROR" && value != "TRACE"
  {
    if value != "" then
      match value
      case "DEBUG" => Debug
      case "INFO" => Info
      case "ERROR" => Error
      case "TRACE" => Trace
      case _ => Info
    else Info
  }

  /** zerolog's `Level.String()`. */
  function LevelString(l: Level): string {
    match l
    case Trace => "trace"
    case Debug => "debug"
    case Info => "info"
    case Warn => "warn"
    case Error => "error"
    case Fatal => "fatal"
  }

  /** The `level` field of every log line: the level name in upper case. */
  function LevelFieldValue(l: Level): (r: string)
    ensures |r| == |LevelString(l)|
  {
    ToUpper(LevelString(l))
  }

  /** The level names a log line carries are the upper-case LOG_LEVEL
      values, and each of the four settable levels reads back from its own
      name. */
  lemma LevelFieldValues(l: Level)
    ensures l == Trace ==> LevelFieldValue(l) == "TRACE"
    ensures l == Debug ==> LevelFieldValue(l) == "DEBUG"
    ensures l == Info ==> LevelFieldValue(l) == "INFO"
    ensures l == Error ==> LevelFieldValue(l) == "ERROR"
    ensures l in {Trace, Debug, Info, Error} ==> LevelFor(LevelFieldValue(l)) == l
  {
    var r := LevelFieldValue(l);
    match l
    case Trace =>
      assert r == [UpperChar('t'), UpperChar('r'), UpperChar('a'), UpperChar('c'), UpperChar('e')];
    case Debug =>
      assert r == [UpperChar('d'), UpperChar('e'), UpperChar('b'), UpperChar('u'), UpperChar('g')];
    case Info =>
      assert r == [UpperChar('i'), UpperChar('n'), UpperChar('f'), UpperChar('o')];
    case Error =>
      assert r == [UpperChar('e'), UpperChar('r'), UpperChar('r'), UpperChar('o'), UpperChar('r')];
    case _ =>
  }

  /** What `configureLogging` sets globally: the level, the `app_label`
      field and whether output goes to the console writer (when not on Lambda). */
  datatype LogConfig = LogConfig(level: Level, appLabel: string, console: bool)

  function ConfigureLogging(env: map<string, string>): (c: LogConfig)
    ensures "LOG_LEVEL" !in env ==> c.level == Info
    ensures "LOG_LEVEL" in env ==> c.level == LevelFor(env["LOG_LEVEL"])
    ensures c.console <==> !IsRunningAsLambda(env)
  {
    LogConfig(LevelFor(Getenv(env, "LOG_LEVEL")), Getenv(env, "APP_LABEL"), !IsRunningAsLambda(env))
  }

  // ---------------------------------------------------------------------
  // Options (options.go:1-94)

  datatype OpenAPIOptions = OpenAPIOptions(service: string, version: string, description: string, swaggerUiDistUrl: string)

  datatype TracingOptions = TracingOptions(service: string, tp: Option<Provider>, propagator: Option<Propagator>)

  /** `Option`: an OpenAPI part, a tracing part, or neither. */
  datatype EngineOption = EngineOption(openapi: Option<OpenAPIOptions>, tracing: Option<TracingOptions>)

  function WithOpenAPI(service: string, version: string, description: string, swaggerUiDistUrl: string): EngineOption {
    EngineOption(Some(OpenAPIOptions(service, version, description, swaggerUiDistUrl)), None)
  }

  function WithXRayTracing(service: string): EngineOption {
    EngineOption(None, Some(TracingOptions(service, None, None)))
  }

  function WithTracing(service: string, tp: Provider, propagator: Propagator): EngineOption {
    EngineOption(None, Some(TracingOptions(service, Some(tp), Some(propagator))))
  }

  /** The tracing parts of the options, in argument order. */
  function TracingOpts(options: seq<EngineOption>): seq<TracingOptions> {
    if options == [] then []
    else
      var last := options[|options| - 1];
      TracingOpts(options[..|options| - 1]) + (if last.tracing.Some? then [last.tracing.value] else [])
  }

  /** The OpenAPI parts of the options, in argument order. */
  function OpenApiOpts(options: seq<EngineOption>): seq<OpenAPIOptions> {
    if options == [] then []
    else
      var last := options[|options| - 1];
      OpenApiOpts(options[..|options| - 1]) + (if last.openapi.Some? then [last.openapi.value] else [])
  }

  /** Each constructor fills exactly one part; `WithXRayTracing` leaves the
      provider and the propagator to the defaults. */
  lemma OptionConstructors(service: string, version: string, description: string, url: string, tp: Provider, propagator: Propagator)
    ensures OpenApiOpts([WithOpenAPI(service, version, description, url)]) == [OpenAPIOptions(service, version, description, url)]
    ensures TracingOpts([WithOpenAPI(service, version, description, url)]) == []
    ensures OpenApiOpts([WithXRayTracing(service)]) == [] && OpenApiOpts([WithTracing(service, tp, propagator)]) == []
    ensures TracingOpts([WithXRayTracing(service)]) == [TracingOptions(service, None, None)]
    ensures TracingOpts([WithTracing(service, tp, propagator)]) == [TracingOptions(service, Some(tp), Some(propagator))]
  {
    assert [WithOpenAPI(service, version, description, url)][..0] == [];
    assert [WithXRayTracing(service)][..0] == [];
    assert [WithTracing(service, tp, propagator)][..0] == [];
  }

  /** Swapping an OpenAPI-only option with a tracing-only one changes
      neither pass, so the argument order between the two kinds does not
      matter. */
  lemma OptionOrderIrrelevant(a: EngineOption, b: EngineOption)
    requires a.tracing.None? && b.openapi.None?
    ensures TracingOpts([a, b]) == TracingOpts([b, a])
    ensures OpenApiOpts([a, b]) == OpenApiOpts([b, a])
  {
    assert [a, b][..1] == [a] && [b, a][..1] == [b];
    assert [a][..0] == [] && [b][..0] == [];
  }

  /** Enabling tracing ends the process for an empty service name or when
      the default X-Ray provider cannot be created (`xrayFails`). */
  predicate TracingFails(t: TracingOptions, xrayFails: bool) {
    t.service == "" || (t.tp.None? && xrayFails)
  }

  function ResolvedProvider(t: TracingOptions): Provider {
    if t.tp.Some? then t.tp.value else XRayTracerProvider
  }

  function ResolvedPropagator(t: TracingOptions): Propagator {
    if t.propagator.Some? then t.propagator.value else XRayPropagator
  }

  /** The span middleware the tracing options add, one per option, in order. */
  function SpanMiddleware(ts: seq<TracingOptions>): (r: seq<Middleware>)
    ensures |r| == |ts|
    ensures forall k :: 0 <= k < |ts| ==> r[k] == ServerSpans(ts[k].service)
  {
    if ts == [] then [] else SpanMiddleware(ts[..|ts| - 1]) + [ServerSpans(ts[|ts| - 1].service)]
  }

  /** `n` tracer shutdowns. */
  function TracerShutdowns(n: nat): (r: seq<Callback>)
    ensures |r| == n && forall k :: 0 <= k < n ==> r[k] == ShutdownTracer
  {
    if n == 0 then [] else TracerShutdowns(n - 1) + [ShutdownTracer]
  }

  /** The documentation routes of `n` OpenAPI options. */
  function DocRoutesOf(n: nat): (r: seq<Route>)
    ensures |r| == 2 * n
  {
    if n == 0 then [] else DocRoutesOf(n - 1) + GinOpenApi.DocRoutes
  }

  lemma {:induction false} TracingOptsAppend(options: seq<EngineOption>, j: nat)
    requires j <= |options|
    ensures TracingOpts(options) == TracingOpts(options[..j]) + TracingOpts(options[j..])
    decreases |options|
  {
    if |options| == j {
      assert options[..j] == options;
      assert options[j..] == [];
    } else {
      var init := options[..|options| - 1];
      TracingOptsAppend(init, j);
      assert init[..j] == options[..j];
      assert options[j..][..|options[j..]| - 1] == init[j..];
      assert options[j..][|options[j..]| - 1] == options[|options| - 1];
    }
  }

  /** Whether the tracing pass over `ts` ends the process: some option
      meets registered routes, or one fails by itself. */
  predicate TracingFatal(ts: seq<TracingOptions>, routesExist: bool, xrayFails: bool) {
    (ts != [] && routesExist) || exists k :: 0 <= k < |ts| && TracingFails(ts[k], xrayFails)
  }

  lemma TracingFatalSnoc(ts: seq<TracingOptions>, t: TracingOptions, routesExist: bool, xrayFails: bool)
    ensures TracingFatal(ts + [t], routesExist, xrayFails) <==>
      TracingFatal(ts, routesExist, xrayFails) || routesExist || TracingFails(t, xrayFails)
  {
    var s := ts + [t];
    if TracingFails(t, xrayFails) {
      assert s[|ts|] == t;
    }
    if TracingFatal(ts, routesExist, xrayFails) && !routesExist {
      var k :| 0 <= k < |ts| && TracingFails(ts[k], xrayFails);
      assert s[k] == ts[k];
    }
    if exists k :: 0 <= k < |s| && TracingFails(s[k], xrayFails) {
      var k :| 0 <= k < |s| && TracingFails(s[k], xrayFails);
      if k < |ts| {
        assert s[k] == ts[k];
      }
    }
  }

  lemma TracingFatalExtends(ts: seq<TracingOptions>, rest: seq<TracingOptions>, routesExist: bool, xrayFails: bool)
    requires TracingFatal(ts, routesExist, xrayFails)
    ensures TracingFatal(ts + rest, routesExist, xrayFails)
  {
    if !(ts != [] && routesExist) {
      var k :| 0 <= k < |ts| && TracingFails(ts[k], xrayFails);
      assert (ts + rest)[k] == ts[k];
    }
  }

  lemma TracingSnoc(ts: seq<TracingOptions>, t: TracingOptions)
    ensures SpanMiddleware(ts + [t]) == SpanMiddleware(ts) + [ServerSpans(t.service)]
    ensures TracerShutdowns(|ts + [t]|) == TracerShutdowns(|ts|) + [ShutdownTracer]
  {
    assert (ts + [t])[..|ts|] == ts;
  }

  // ---------------------------------------------------------------------
  // The engine

  class GinEngine {
    var logging: LogConfig
    var middleware: seq<Middleware>
    var routes: seq<Route>
    var tp: Option<Provider>
    var propagator: Option<Propagator>
    var openapi: OpenApiDoc.OpenAPI?
    var onShutdown: seq<Callback>

    predicate TracingEnabled()
      reads this
    {
      tp.Some?
    }

    predicate OpenAPIEnabled()
      reads this
    {
      openapi != null
    }

    /** `New`: configures logging from the environment, installs the error
        handler, the access logger (skipping every path), CORS and the panic
        recovery, in that order, and enables OpenAPI for each option that
        carries it; the tracing parts are not applied. */
    constructor (env: map<string, string>, options: seq<EngineOption>)
      ensures logging == ConfigureLogging(env)
      ensures middleware == [ErrorHandlerMiddleware, AccessLogger(true), Cors(Routing.EngineCors), PanicRecovery]
      ensures tp.None? && propagator.None? && onShutdown == []
      ensures routes == DocRoutesOf(|OpenApiOpts(options)|)
      ensures OpenAPIEnabled() <==> OpenApiOpts(options) != []
      ensures OpenApiOpts(options) != [] ==>
        var o := OpenApiOpts(options)[|OpenApiOpts(options)| - 1];
        fresh(openapi) && openapi.title == o.service && openapi.version == o.version &&
        openapi.description == o.description && openapi.swaggerUiDistUrl == TrimSuffix(o.swaggerUiDistUrl, "/") &&
        openapi.operations == []
    {
      logging := ConfigureLogging(env);
      middleware := [ErrorHandlerMiddleware, AccessLogger(true), Cors(Routing.EngineCors), PanicRecovery];
      routes := [];
      tp := None;
      propagator := None;
      openapi := null;
      onShutdown := [];
      new;
      ApplyOpenApi(options);
    }

    /** `OnShutdown`: appends, keeping the order of registration. */
    method OnShutdown(f: Callback)
      modifies this
      ensures onShutdown == old(onShutdown) + [f]
      ensures logging == old(logging) && middleware == old(middleware) && routes == old(routes)
      ensures tp == old(tp) && propagator == old(propagator) && openapi == old(openapi)
    {
      onShutdown := onShutdown + [f];
    }

    /** `shutdownCallbacks`: each callback is deferred in registration
        order, the list is emptied, and the deferred calls then run last
        one first. `ran` is the order in which they run. */
    method ShutdownCallbacks() returns (ran: seq<Callback>)
      modifies this
      ensures ran == Reversed(old(onShutdown))
      ensures onShutdown == []
      ensures logging == old(logging) && middleware == old(middleware) && routes == old(routes)
      ensures tp == old(tp) && propagator == old(propagator) && openapi == old(openapi)
    {
      var deferred: seq<Callback> := [];
      var i := 0;
      while i < |onShutdown|
        invariant 0 <= i <= |onShutdown|
        invariant deferred == onShutdown[..i]
      {
        deferred := deferred + [onShutdown[i]];
        i := i + 1;
      }
      assert deferred == old(onShutdown);
      onShutdown := [];
      ran := [];
      var j := |deferred|;
      while j > 0
        invariant 0 <= j <= |deferred|
        invariant ran == Reversed(deferred[j..])
      {
        assert deferred[j - 1..][1..] == deferred[j..];
        ran := ran + [deferred[j - 1]];
        j := j - 1;
      }
    }

    /** `enableOpenAPI`: a new document for the options, and GET
        /openapi.json and GET /docs on the root group. */
    method EnableOpenAPI(options: OpenAPIOptions)
      modifies this
      ensures fresh(openapi)
      ensures openapi.title == options.service && openapi.version == options.version
      ensures openapi.description == options.description && openapi.operations == []
      ensures openapi.swaggerUiDistUrl == TrimSuffix(options.swaggerUiDistUrl, "/")
      ensures routes == old(routes) + GinOpenApi.DocRoutes
      ensures logging == old(logging) && middleware == old(middleware) && onShutdown == old(onShutdown)
      ensures tp == old(tp) && propagator == old(propagator)
    {
      openapi := new OpenApiDoc.OpenAPI(options.service, options.version, options.description, options.swaggerUiDistUrl);
      routes := routes + [Route(Routing.RootGroup, "GET", "/openapi.json", [SpecJson])];
      routes := routes + [Route(Routing.RootGroup, "GET", "/docs", [SwaggerUi])];
    }

    /** `enableTracing`: fatal when routes are already registered; the
        provider (the X-Ray default when none is given, fatal when it cannot
        be created, `xrayFails`) and the propagator (X-Ray by default) are
        stored; fatal for an empty service name; otherwise the span
        middleware is installed and one shutdown callback registered. */
    method EnableTracing(options: TracingOptions, xrayFails: bool) returns (fatal: bool)
      modifies this
      ensures fatal <==> old(routes) != [] || TracingFails(options, xrayFails)
      ensures routes == old(routes) && openapi == old(openapi) && logging == old(logging)
      ensures !fatal ==>
        tp == Some(ResolvedProvider(options)) && propagator == Some(ResolvedPropagator(options)) &&
        middleware == old(middleware) + [ServerSpans(options.service)] &&
        onShutdown == old(onShutdown) + [ShutdownTracer]
    {
      if 0 < |routes| {
        return true;
      }
      var provider: Provider;
      if options.tp.None? {
        if xrayFails {
          return true;
        }
        provider := XRayTracerProvider;
      } else {
        provider := options.tp.value;
      }
      var prop := if options.propagator.None? then XRayPropagator else options.propagator.value;
      tp := Some(provider);
      propagator := Some(prop);
      if options.service == "" {
        return true;
      }
      middleware := middleware + [ServerSpans(options.service)];
      OnShutdown(ShutdownTracer);
      return false;
    }

    /** The tracing state after the tracing options `ts`, starting from
        middleware `m0`, callbacks `s0`, provider `tp0` and propagator `p0`. */
    ghost predicate Traced(ts: seq<TracingOptions>, m0: seq<Middleware>, s0: seq<Callback>, tp0: Option<Provider>, p0: Option<Propagator>)
      reads this
    {
      middleware == m0 + SpanMiddleware(ts) &&
      onShutdown == s0 + TracerShutdowns(|ts|) &&
      tp == (if ts == [] then tp0 else Some(ResolvedProvider(ts[|ts| - 1]))) &&
      propagator == (if ts == [] then p0 else Some(ResolvedPropagator(ts[|ts| - 1])))
    }

    /** One step of the tracing pass. */
    method TraceStep(ghost ts: seq<TracingOptions>, t: TracingOptions, xrayFails: bool,
                     ghost m0: seq<Middleware>, ghost s0: seq<Callback>, ghost tp0: Option<Provider>, ghost p0: Option<Propagator>)
      returns (fatal: bool)
      requires Traced(ts, m0, s0, tp0, p0)
      modifies this
      ensures fatal <==> old(routes) != [] || TracingFails(t, xrayFails)
      ensures routes == old(routes) && openapi == old(openapi) && logging == old(logging)
      ensures !fatal ==> Traced(ts + [t], m0, s0, tp0, p0)
    {
      fatal := EnableTracing(t, xrayFails);
      if !fatal {
        TracingSnoc(ts, t);
        assert (ts + [t])[|ts + [t]| - 1] == t;
      }
    }

    /** The tracing pass has enabled every tracing option of `prefix`
        without a fatal one. */
    ghost predicate TracedSoFar(prefix: seq<EngineOption>, hadRoutes: bool, xrayFails: bool,
                                m0: seq<Middleware>, s0: seq<Callback>, tp0: Option<Provider>, p0: Option<Propagator>)
      reads this
    {
      !TracingFatal(TracingOpts(prefix), hadRoutes, xrayFails) && Traced(TracingOpts(prefix), m0, s0, tp0, p0)
    }

    /** One turn of the tracing pass: option `i`, when it is a tracing
        option, is enabled. */
    method TracingTurn(options: seq<EngineOption>, i: nat, xrayFails: bool, ghost hadRoutes: bool,
                       ghost m0: seq<Middleware>, ghost s0: seq<Callback>, ghost tp0: Option<Provider>, ghost p0: Option<Propagator>)
      returns (fatal: bool)
      requires i < |options| && hadRoutes == (routes != [])
      requires TracedSoFar(options[..i], hadRoutes, xrayFails, m0, s0, tp0, p0)
      modifies this
      ensures routes == old(routes) && openapi == old(openapi) && logging == old(logging)
      ensures fatal ==> TracingFatal(TracingOpts(options), hadRoutes, xrayFails)
      ensures !fatal ==> TracedSoFar(options[..i + 1], hadRoutes, xrayFails, m0, s0, tp0, p0)
    {
      ghost var ts := TracingOpts(options[..i]);
      assert options[..i + 1][..i] == options[..i];
      assert options[..i + 1][i] == options[i];
      if options[i].tracing.Some? {
        var t := options[i].tracing.value;
        assert TracingOpts(options[..i + 1]) == ts + [t];
        fatal := TraceStep(ts, t, xrayFails, m0, s0, tp0, p0);
        TracingFatalSnoc(ts, t, hadRoutes, xrayFails);
        if fatal {
          TracingOptsAppend(options, i + 1);
          TracingFatalExtends(ts + [t], TracingOpts(options[i + 1..]), hadRoutes, xrayFails);
        }
      } else {
        assert TracingOpts(options[..i + 1]) == ts;
        fatal := false;
      }
    }

    /** The tracing pass of `apply`: every tracing option in argument order,
        stopping at the first fatal one. */
    method ApplyTracing(options: seq<EngineOption>, xrayFails: bool) returns (fatal: bool)
      modifies this
      ensures fatal <==> TracingFatal(TracingOpts(options), old(routes) != [], xrayFails)
      ensures routes == old(routes) && openapi == old(openapi) && logging == old(logging)
      ensures !fatal ==> Traced(TracingOpts(options), old(middleware), old(onShutdown), old(tp), old(propagator))
    {
      var i := 0;
      while i < |options|
        invariant 0 <= i <= |options|
        invariant routes == old(routes) && openapi == old(openapi) && logging == old(logging)
        invariant TracedSoFar(options[..i], old(routes) != [], xrayFails, old(middleware), old(onShutdown), old(tp), old(propagator))
      {
        fatal := TracingTurn(options, i, xrayFails, old(routes) != [], old(middleware), old(onShutdown), old(tp), old(propagator));
        if fatal {
          return;
        }
        i := i + 1;
      }
      assert options[..i] == options;
      fatal := false;
    }

    /** `apply`: first every tracing option, then every OpenAPI option,
        each pass in argument order. With no routes registered beforehand,
        the OpenAPI routes are never seen by the tracing check. */
    method Apply(options: seq<EngineOption>, xrayFails: bool) returns (fatal: bool)
      modifies this
      ensures var ts := TracingOpts(options);
        fatal <==> (ts != [] && old(routes) != []) || exists k :: 0 <= k < |ts| && TracingFails(ts[k], xrayFails)
      ensures !fatal ==>
        var ts := TracingOpts(options);
        var os := OpenApiOpts(options);
        logging == old(logging) &&
        middleware == old(middleware) + SpanMiddleware(ts) &&
        onShutdown == old(onShutdown) + TracerShutdowns(|ts|) &&
        tp == (if ts == [] then old(tp) else Some(ResolvedProvider(ts[|ts| - 1]))) &&
        propagator == (if ts == [] then old(propagator) else Some(ResolvedPropagator(ts[|ts| - 1]))) &&
        routes == old(routes) + DocRoutesOf(|os|) &&
        (os == [] ==> openapi == old(openapi)) &&
        (os != [] ==>
          var o := os[|os| - 1];
          fresh(openapi) && openapi.title == o.service && openapi.version == o.version &&
          openapi.description == o.description && openapi.swaggerUiDistUrl == TrimSuffix(o.swaggerUiDistUrl, "/") &&
          openapi.operations == [])
    {
      fatal := ApplyTracing(options, xrayFails);
      if fatal {
        return;
      }
      ApplyOpenApi(options);
    }

    /** The OpenAPI pass of `apply`. */
    method ApplyOpenApi(options: seq<EngineOption>)
      modifies this
      ensures logging == old(logging) && middleware == old(middleware) && onShutdown == old(onShutdown)
      ensures tp == old(tp) && propagator == old(propagator)
      ensures routes == old(routes) + DocRoutesOf(|OpenApiOpts(options)|)
      ensures OpenApiOpts(options) == [] ==> openapi == old(openapi)
      ensures OpenApiOpts(options) != [] ==>
        var o := OpenApiOpts(options)[|OpenApiOpts(options)| - 1];
        fresh(openapi) && openapi.title == o.service && openapi.version == o.version &&
        openapi.description == o.description && openapi.swaggerUiDistUrl == TrimSuffix(o.swaggerUiDistUrl, "/") &&
        openapi.operations == []
    {
      var i := 0;
      while i < |options|
        invariant 0 <= i <= |options|
        invariant logging == old(logging) && middleware == old(middleware) && onShutdown == old(onShutdown)
        invariant tp == old(tp) && propagator == old(propagator)
        invariant routes == old(routes) + DocRoutesOf(|OpenApiOpts(options[..i])|)
        invariant OpenApiOpts(options[..i]) == [] ==> openapi == old(openapi)
        invariant OpenApiOpts(options[..i]) != [] ==>
          var o := OpenApiOpts(options[..i])[|OpenApiOpts(options[..i])| - 1];
          fresh(openapi) && openapi.title == o.service && openapi.version == o.version &&
          openapi.description == o.description && openapi.swaggerUiDistUrl == TrimSuffix(o.swaggerUiDistUrl, "/") &&
          openapi.operations == []
      {
        assert options[..i + 1][..i] == options[..i];
        if options[i].openapi.Some? {
          EnableOpenAPI(options[i].openapi.value);
        }
        i := i + 1;
      }
      assert options[..i] == options;
    }
  }
}
