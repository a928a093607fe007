/** The routing half of `aws/ginruntime` (aws/ginruntime/routing.go): the
    integer method constants, the engine `New` builds with its global
    middleware, route registration and the shutdown callbacks. This file
    declares its own `GinEngine`, without OpenAPI support. */
module Routing {
  import opened Wrappers
  import opened Gin

  const GET: int := 0
  const POST: int := 1
  const PUT: int := 2
  const PATCH: int := 3
  const DELETE: int := 4

  /** The verb `setMethodHandler` registers under for a method constant,
      and none for any other integer. */
  function VerbOf(code: int): (r: Option<string>)
    ensures r.Some? <==> GET <= code <= DELETE
    ensures code == GET ==> r == Some("GET")
    ensures code == POST ==> r == Some("POST")
    ensures code == PUT ==> r == Some("PUT")
    ensures code == PATCH ==> r == Some("PATCH")
    ensures code == DELETE ==> r == Some("DELETE")
  {
    if code == POST then Some("POST")
    else if code == GET then Some("GET")
    else if code == PUT then Some("PUT")
    else if code == DELETE then Some("DELETE")
    else if code == PATCH then Some("PATCH")
    else None
  }

  /** The CORS settings of `New`: credentials and every origin allowed, the
      `authorization` and `content-type` headers, and `OPTIONS` added to the
      default methods. */
  const EngineCors: CorsConfig := CorsConfig(true, true, ["authorization", "content-type"], ["OPTIONS"])

  /** The group a route is added to when none is given. */
  const RootGroup: string := "/"

  class GinEngine {
    var middleware: seq<Middleware>
    var routes: seq<Route>
    var tp: Option<Provider>
    var propagator: Option<Propagator>
    var onShutdown: seq<Callback>

    /** `New`: the error handler, CORS and gin's own panic recovery, in that
        order; no routes, no tracing and no shutdown callbacks. */
    constructor ()
      ensures middleware == [ErrorHandlerMiddleware, Cors(EngineCors), GinRecovery]
      ensures routes == [] && tp.None? && propagator.None? && onShutdown == []
    {
      middleware := [ErrorHandlerMiddleware, Cors(EngineCors), GinRecovery];
      routes := [];
      tp := None;
      propagator := None;
      onShutdown := [];
    }

    /** `OnShutdown`: appends, keeping the order of registration. */
    method OnShutdown(f: Callback)
      modifies this
      ensures onShutdown == old(onShutdown) + [f]
      ensures middleware == old(middleware) && routes == old(routes)
      ensures tp == old(tp) && propagator == old(propagator)
    {
      onShutdown := onShutdown + [f];
    }

    /** `shutdownCallbacks`: each callback is deferred in registration
        order, the list is emptied, and the deferred calls then run last
        one first. `ran` is the order in which they run. */
    method ShutdownCallbacks() returns (ran: seq<Callback>)
      modifies this
      ensures ran == Reversed(old(onShutdown))
      ensures onShutdown == []
      ensures middleware == old(middleware) && routes == old(routes)
      ensures tp == old(tp) && propagator == old(propagator)
    {
      var deferred: seq<Callback> := [];
      var i := 0;
      while i < |onShutdown|
        invariant 0 <= i <= |onShutdown|
        invariant deferred == onShutdown[..i]
      {
        deferred := deferred + [onShutdown[i]];
        i := i + 1;
      }
      assert deferred == old(onShutdown);
      onShutdown := [];
      ran := [];
      var j := |deferred|;
      while j > 0
        invariant 0 <= j <= |deferred|
        invariant ran == Reversed(deferred[j..])
      {
        assert deferred[j - 1..][1..] == deferred[j..];
        ran := ran + [deferred[j - 1]];
        j := j - 1;
      }
    }

    /** `setMethodHandler`: registers under the verb of the constant, and
        nothing for any other integer. */
    method SetMethodHandler(code: int, path: string, group: string, handlers: seq<Handler>)
      modifies this
      ensures VerbOf(code).Some? ==> routes == old(routes) + [Route(group, VerbOf(code).value, path, handlers)]
      ensures VerbOf(code).None? ==> routes == old(routes)
      ensures middleware == old(middleware) && onShutdown == old(onShutdown)
      ensures tp == old(tp) && propagator == old(propagator)
    {
      if code == POST {
        routes := routes + [Route(group, "POST", path, handlers)];
      } else if code == GET {
        routes := routes + [Route(group, "GET", path, handlers)];
      } else if code == PUT {
        routes := routes + [Route(group, "PUT", path, handlers)];
      } else if code == DELETE {
        routes := routes + [Route(group, "DELETE", path, handlers)];
      } else if code == PATCH {
        routes := routes + [Route(group, "PATCH", path, handlers)];
      }
    }

    /** `AddRoute`: a missing group means the root group "/". */
    method AddRoute(group: Option<string>, path: string, code: int, handlers: seq<Handler>)
      modifies this
      ensures var g := if group.Some? then group.value else RootGroup;
        routes == old(routes) + (if VerbOf(code).Some? then [Route(g, VerbOf(code).value, path, handlers)] else [])
      ensures middleware == old(middleware) && onShutdown == old(onShutdown)
      ensures tp == old(tp) && propagator == old(propagator)
    {
      var g := if group.Some? then group.value else RootGroup;
      SetMethodHandler(code, path, g, handlers);
    }

    /** `Use`: appends middleware after what is installed. */
    method Use(added: seq<Middleware>)
      modifies this
      ensures middleware == old(middleware) + added
      ensures routes == old(routes) && onShutdown == old(onShutdown)
      ensures tp == old(tp) && propagator == old(propagator)
    {
      middleware := middleware + added;
    }
  }

  /** Registering a handler for the same path with two different constants
      of the five gives two routes with different verbs. */
  lemma VerbsDistinct(m1: int, m2: int)
    requires GET <= m1 <= DELETE && GET <= m2 <= DELETE && m1 != m2
    ensures VerbOf(m1).Some? && VerbOf(m2).Some? && VerbOf(m1).value != VerbOf(m2).value
  {
  }
}
