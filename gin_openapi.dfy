/** The OpenAPI support of aws/ginruntime/openapi.go: its own annotation
    functions, `getMethodName`, the document's `Add`, and `EnableOpenAPI`,
    which registers the two documentation routes on the engine of
    aws/ginruntime/routing.go. Unlike the `openapi` sub-package, this `Add`
    neither rewrites path parameters nor sets a default ID. */
module GinOpenApi {
  import opened Wrappers
  import opened Gin
  import opened OperationContext
  import Routing

  /** The annotations of this file; a request or response structure is
      named by its Go type, and the statuses of `AnnotateResponse` come in
      the order Go's map iteration yields them. */
  datatype Annotation =
    | AnnotateID(id: string)
    | AnnotateTags(tags: seq<string>)
    | AnnotateRequest(structure: string)
    | AnnotateResponse(responses: seq<(int, string)>)

  /** The JSON response units of `AnnotateResponse`, in iteration order. */
  function ResponseUnits(responses: seq<(int, string)>): (r: seq<ContentUnit>)
    ensures |r| == |responses|
    ensures forall k :: 0 <= k < |r| ==> r[k] == ContentUnit(responses[k].1, responses[k].0, JsonContentType, false)
  {
    if responses == [] then []
    else [ContentUnit(responses[0].1, responses[0].0, JsonContentType, false)] + ResponseUnits(responses[1..])
  }

  function Annotated(op: Operation, a: Annotation): Operation {
    match a
    case AnnotateID(id) => op.(id := id)
    case AnnotateTags(tags) => op.(tags := tags)
    case AnnotateRequest(t) => op.(requests := op.requests + [ContentUnit(t, 0, JsonContentType, false)])
    case AnnotateResponse(rs) => op.(responses := op.responses + ResponseUnits(rs))
  }

  /** The annotations applied in list order. */
  function AnnotatedAll(op: Operation, annotations: seq<Annotation>): Operation {
    if annotations == [] then op
    else Annotated(AnnotatedAll(op, annotations[..|annotations| - 1]), annotations[|annotations| - 1])
  }

  /** The tags a list of annotations leaves: those of the last `AnnotateTags`, else `default`. */
  function LastTags(annotations: seq<Annotation>, default: seq<string>): seq<string> {
    if annotations == [] then default
    else if annotations[|annotations| - 1].AnnotateTags? then annotations[|annotations| - 1].tags
    else LastTags(annotations[..|annotations| - 1], default)
  }

  /** Annotations keep the verb and the path as given, and the last tag list wins. */
  lemma {:induction false} AnnotatedAllKeeps(op: Operation, annotations: seq<Annotation>)
    ensures var r := AnnotatedAll(op, annotations);
      r.verb == op.verb && r.path == op.path && r.tags == LastTags(annotations, op.tags)
    decreases |annotations|
  {
    if annotations != [] {
      AnnotatedAllKeeps(op, annotations[..|annotations| - 1]);
    }
  }

  /** `getMethodName`: the verb of a method constant; any other constant is
      fatal (`log.Fatal` ends the process), given here as `None`. */
  function GetMethodName(code: int): (r: Option<string>)
    ensures r.Some? <==> Routing.GET <= code <= Routing.DELETE
  {
    match code
    case 0 => Some("GET")
    case 1 => Some("POST")
    case 2 => Some("PUT")
    case 3 => Some("PATCH")
    case 4 => Some("DELETE")
    case _ => None
  }

  /** The name a documented operation gets is the verb its route is registered under. */
  lemma MethodNameMatchesRoute(code: int)
    ensures GetMethodName(code) == Routing.VerbOf(code)
  {
  }

  /** The outcome of `Add`: the process ends on an unknown constant;
      otherwise the error returned, if any. */
  datatype AddOutcome = Exited | Returned(err: Option<string>)

  /** This file's `*OpenAPI`: the reflector's document, as its info and the
      operations added so far. */
  class OpenAPI {
    var title: string
    var version: string
    var description: string
    var operations: seq<Operation>

    constructor (title: string, version: string, description: string)
      ensures this.title == title && this.version == version && this.description == description
      ensures operations == []
    {
      this.title := title;
      this.version := version;
      this.description := description;
      operations := [];
    }

    /** `Add`: the verb of the constant (fatal when there is none), the
        reflector's operation context (`contextError` is its refusal, which
        is returned before any annotation runs), the annotations in order,
        then the operation is added (`addError` is the reflector's refusal). */
    method Add(code: int, path: string, annotations: seq<Annotation>,
               contextError: Option<string>, addError: Option<string>) returns (outcome: AddOutcome)
      modifies this
      ensures GetMethodName(code).None? <==> outcome.Exited?
      ensures outcome.Returned? && contextError.Some? ==> outcome.err == contextError
      ensures outcome.Returned? && contextError.None? ==> outcome.err == addError
      ensures outcome == Returned(None) ==>
        operations == old(operations) + [AnnotatedAll(NewOperation(GetMethodName(code).value, path), annotations)]
      ensures outcome != Returned(None) ==> operations == old(operations)
      ensures title == old(title) && version == old(version) && description == old(description)
    {
      var methodName := GetMethodName(code);
      if methodName.None? {
        return Exited;
      }
      if contextError.Some? {
        return Returned(contextError);
      }
      var oc := NewOperation(methodName.value, path);
      var i := 0;
      while i < |annotations|
        invariant 0 <= i <= |annotations|
        invariant oc == AnnotatedAll(NewOperation(methodName.value, path), annotations[..i])
      {
        assert annotations[..i + 1][..i] == annotations[..i];
        oc := Annotated(oc, annotations[i]);
        i := i + 1;
      }
      assert annotations[..i] == annotations;
      if addError.Some? {
        return Returned(addError);
      }
      operations := operations + [oc];
      return Returned(None);
    }
  }

  /** The two routes `EnableOpenAPI` registers, under the root group. */
  const DocRoutes: seq<Route> := [Route("/", "GET", "/openapi.json", [SpecJson]), Route("/", "GET", "/docs", [SwaggerUi])]

  /** `EnableOpenAPI`: a new, empty document with the given info, and the
      routes GET /openapi.json and GET /docs on the root group. The engine
      of routing.go has no field for the document, so it is returned. */
  method EnableOpenAPI(e: Routing.GinEngine, title: string, version: string, description: string) returns (spec: OpenAPI)
    modifies e
    ensures fresh(spec)
    ensures spec.title == title && spec.version == version && spec.description == description && spec.operations == []
    ensures e.routes == old(e.routes) + DocRoutes
    ensures e.middleware == old(e.middleware) && e.onShutdown == old(e.onShutdown)
  {
    spec := new OpenAPI(title, version, description);
    e.AddRoute(None, "/openapi.json", Routing.GET, [SpecJson]);
    e.AddRoute(None, "/docs", Routing.GET, [SwaggerUi]);
  }
}
