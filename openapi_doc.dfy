/** The OpenAPI document of `aws/ginruntime/openapi` (openapi.go and the
    annotations of annotation.go): gin's `:name` path parameters are
    rewritten to the `{name}` templates of OpenAPI 3.1 (section 3.2 of the
    OpenAPI Specification 3.1.0), every operation gets `METHOD-path` as its
    default ID, and annotations then adjust the operation in the order they
    are given. */
module OpenApiDoc {
  import opened Wrappers
  import opened Text
  import opened OperationContext

  // ---------------------------------------------------------------------
  // Path parameters (openapi.go:60-63)

  /** The length of the longest prefix of `s` holding neither `/` nor `$`:
      the run `[^\/$]*` matches after a `:`. */
  function RunLength(s: string): (n: nat)
    ensures n <= |s|
    ensures forall j :: 0 <= j < n ==> s[j] != '/' && s[j] != '$'
    ensures n == |s| || s[n] == '/' || s[n] == '$'
  {
    if s == [] || s[0] == '/' || s[0] == '$' then 0 else 1 + RunLength(s[1..])
  }

  /** `normalizePathParameters`: `regexp.MustCompile(":([^\/$]*)")`
      replaced by `{$1}`, scanning left to right: each `:` and the maximal
      run after it become the run in braces; everything else is copied. */
  function NormalizePathParameters(path: string): (r: string)
    decreases |path|
  {
    if path == [] then []
    else if path[0] == ':' then
      var n := RunLength(path[1..]);
      "{" + path[1..1 + n] + "}" + NormalizePathParameters(path[1 + n..])
    else [path[0]] + NormalizePathParameters(path[1..])
  }

  /** A path without a `:` is left as it is. */
  lemma {:induction false} NormalizeWithoutColon(path: string)
    requires ':' !in path
    ensures NormalizePathParameters(path) == path
    decreases |path|
  {
    if path != [] {
      assert path[0] != ':';
      assert ':' !in path[1..];
      NormalizeWithoutColon(path[1..]);
      assert [path[0]] + path[1..] == path;
    }
  }

  /** Turning templates back into gin parameters: `{` becomes `:` and `}` is dropped. */
  function Denormalize(s: string): (r: string)
    ensures |r| <= |s|
  {
    if s == [] then []
    else if s[0] == '{' then [':'] + Denormalize(s[1..])
    else if s[0] == '}' then Denormalize(s[1..])
    else [s[0]] + Denormalize(s[1..])
  }

  lemma {:induction false} DenormalizeAppend(a: string, b: string)
    ensures Denormalize(a + b) == Denormalize(a) + Denormalize(b)
    decreases |a|
  {
    if a == [] {
      assert a + b == b;
    } else {
      assert (a + b)[0] == a[0] && (a + b)[1..] == a[1..] + b;
      DenormalizeAppend(a[1..], b);
    }
  }

  lemma {:induction false} DenormalizePlain(s: string)
    requires '{' !in s && '}' !in s
    ensures Denormalize(s) == s
    decreases |s|
  {
    if s != [] {
      assert '{' !in s[1..] && '}' !in s[1..];
      DenormalizePlain(s[1..]);
      assert [s[0]] + s[1..] == s;
    }
  }

  /** A template reads back as the parameter it came from. */
  lemma DenormalizeTemplate(run: string)
    requires '{' !in run && '}' !in run
    ensures Denormalize("{" + run + "}") == [':'] + run
  {
    DenormalizeAppend("{" + run, "}");
    DenormalizeAppend("{", run);
    DenormalizePlain(run);
    assert Denormalize("}") == [];
  }

  /** One `:` step of the rewrite: the parameter run and what follows it. */
  lemma NormalizeColon(path: string, n: nat)
    requires path != [] && path[0] == ':' && n == RunLength(path[1..])
    ensures 1 + n <= |path|
    ensures NormalizePathParameters(path) == "{" + path[1..1 + n] + "}" + NormalizePathParameters(path[1 + n..])
  {
  }

  /** A path cut after its first character and again after `1 + n`. */
  lemma CutAfterColon(path: string, n: nat)
    requires path != [] && path[0] == ':' && 1 + n <= |path|
    ensures path == [':'] + path[1..1 + n] + path[1 + n..]
  {
    assert path[1..] == path[1..1 + n] + path[1 + n..];
    assert path == [path[0]] + path[1..];
  }

  /** For a gin path without braces, normalising loses nothing: every
      template reads back as the parameter it came from. */
  lemma {:induction false} NormalizeRoundTrip(path: string)
    requires '{' !in path && '}' !in path
    ensures Denormalize(NormalizePathParameters(path)) == path
    decreases |path|
  {
    if path == [] {
    } else if path[0] == ':' {
      var n := RunLength(path[1..]);
      NormalizeColon(path, n);
      CutAfterColon(path, n);
      var run, rest := path[1..1 + n], path[1 + n..];
      assert forall c :: c in run || c in rest ==> c in path;
      NormalizeRoundTrip(rest);
      DenormalizeAppend("{" + run + "}", NormalizePathParameters(rest));
      DenormalizeTemplate(run);
    } else {
      var tail := path[1..];
      assert forall c :: c in tail ==> c in path;
      NormalizeRoundTrip(tail);
      assert NormalizePathParameters(path) == [path[0]] + NormalizePathParameters(tail);
      DenormalizeAppend([path[0]], NormalizePathParameters(tail));
      assert [path[0]] + tail == path;
    }
  }

  /** `/:path` becomes `/{path}`. */
  lemma NormalizeExample(path: string)
    requires path == "/:path"
    ensures NormalizePathParameters(path) == "/{path}"
  {
    var p := ":path";
    assert path[1..] == p;
    assert RunLength("path") == 4 by {
      assert "path"[1..] == "ath" && "ath"[1..] == "th" && "th"[1..] == "h" && "h"[1..] == [];
    }
    NormalizeColon(p, 4);
    assert p[1..5] == "path" && p[5..] == [];
    assert NormalizePathParameters(p) == "{path}";
    assert NormalizePathParameters(path) == "/" + NormalizePathParameters(p);
  }

  // ---------------------------------------------------------------------
  // Annotations (annotation.go:29-83)

  /** The annotations this package offers; `Request[T]` and `Response[T]`
      are given the name of `T`. */
  datatype Annotation =
    | ID(id: string)
    | Summary(summary: string)
    | Description(description: string)
    | Deprecated
    | Tags(tags: seq<string>)
    | Request(structure: string)
    | Response(structure: string, status: int)
    | HtmlResponse(status: int)
    | FileResponse(status: int, contentType: string)
    | EmptyResponse(status: int)

  /** What one annotation does to the operation context. */
  function Annotated(op: Operation, a: Annotation): Operation {
    match a
    case ID(id) => op.(id := id)
    case Summary(s) => op.(summary := s)
    case Description(d) => op.(description := d)
    case Deprecated => op.(deprecated := true)
    case Tags(tags) => op.(tags := tags)
    case Request(t) => op.(requests := op.requests + [ContentUnit(t, 0, JsonContentType, false)])
    case Response(t, status) => op.(responses := op.responses + [ContentUnit(t, status, JsonContentType, false)])
    case HtmlResponse(status) => op.(responses := op.responses + [ContentUnit("", status, "text/html", false)])
    case FileResponse(status, ct) => op.(responses := op.responses + [ContentUnit("file", status, ct, true)])
    case EmptyResponse(status) => op.(responses := op.responses + [ContentUnit("", status, "", false)])
  }

  /** The annotations applied in list order. */
  function AnnotatedAll(op: Operation, annotations: seq<Annotation>): Operation {
    if annotations == [] then op
    else Annotated(AnnotatedAll(op, annotations[..|annotations| - 1]), annotations[|annotations| - 1])
  }

  /** The ID a list of annotations leaves: the last `ID` annotation's, else `default`. */
  function LastID(annotations: seq<Annotation>, default: string): string {
    if annotations == [] then default
    else if annotations[|annotations| - 1].ID? then annotations[|annotations| - 1].id
    else LastID(annotations[..|annotations| - 1], default)
  }

  /** The response bodies the annotations add, in order. */
  function ResponseUnits(annotations: seq<Annotation>): seq<ContentUnit> {
    if annotations == [] then []
    else
      var a := annotations[|annotations| - 1];
      ResponseUnits(annotations[..|annotations| - 1]) + Annotated(NewOperation([], []), a).responses
  }

  /** Annotations keep method and path, set the ID of the last `ID`
      annotation (the default otherwise), and add their responses after the
      existing ones in list order. */
  lemma {:induction false} AnnotatedAllEffect(op: Operation, annotations: seq<Annotation>)
    ensures var r := AnnotatedAll(op, annotations);
      r.verb == op.verb && r.path == op.path &&
      r.id == LastID(annotations, op.id) &&
      r.responses == op.responses + ResponseUnits(annotations)
    decreases |annotations|
  {
    if annotations != [] {
      var init := annotations[..|annotations| - 1];
      AnnotatedAllEffect(op, init);
      var a := annotations[|annotations| - 1];
      var before := AnnotatedAll(op, init);
      assert ResponseUnits(annotations) == ResponseUnits(init) + Annotated(NewOperation([], []), a).responses;
      assert Annotated(before, a).responses == before.responses + Annotated(NewOperation([], []), a).responses;
    }
  }

  /** An `ID` annotation anywhere in the list overrides the default ID. */
  lemma IdAnnotationOverrides(op: Operation, before: seq<Annotation>, id: string, after: seq<Annotation>)
    requires forall k :: 0 <= k < |after| ==> !after[k].ID?
    ensures AnnotatedAll(op, before + [ID(id)] + after).id == id
  {
    AnnotatedAllEffect(op, before + [ID(id)] + after);
    LastIdSkips(before + [ID(id)], after, op.id);
    assert (before + [ID(id)])[..|before + [ID(id)]| - 1] == before;
  }

  lemma {:induction false} LastIdSkips(prefix: seq<Annotation>, after: seq<Annotation>, default: string)
    requires forall k :: 0 <= k < |after| ==> !after[k].ID?
    ensures LastID(prefix + after, default) == LastID(prefix, default)
    decreases |after|
  {
    if after == [] {
      assert prefix + after == prefix;
    } else {
      var s := prefix + after;
      assert s[..|s| - 1] == prefix + after[..|after| - 1];
      assert s[|s| - 1] == after[|after| - 1];
      LastIdSkips(prefix, after[..|after| - 1], default);
    }
  }

  /** The operation `Add` builds before annotating: the method and the
      normalised path, with `METHOD-path` as its ID. */
  function DefaultOperation(verb: string, path: string): (op: Operation)
    ensures op.verb == verb && op.path == NormalizePathParameters(path)
    ensures op.id == verb + "-" + NormalizePathParameters(path)
  {
    var normalized := NormalizePathParameters(path);
    NewOperation(verb, normalized).(id := verb + "-" + normalized)
  }

  /** `GET /:path` gets the ID `GET-/{path}`. */
  lemma DefaultIdExample(path: string)
    requires path == "/:path"
    ensures DefaultOperation("GET", path).id == "GET-/{path}"
  {
    NormalizeExample(path);
  }

  // ---------------------------------------------------------------------
  // The document (openapi.go:14-58)

  /** `*OpenAPI`: the reflector's document (its info and the operations
      added so far) and the Swagger UI page, given by the dist URL it was
      rendered with. */
  class OpenAPI {
    var title: string
    var version: string
    var description: string
    var swaggerUiDistUrl: string
    var operations: seq<Operation>

    /** `New`: an empty 3.1.0 document; at most one trailing `/` of the
        dist URL is dropped. */
    constructor (title: string, version: string, description: string, swaggerUiDistUrl: string)
      ensures this.title == title && this.version == version && this.description == description
      ensures this.swaggerUiDistUrl == TrimSuffix(swaggerUiDistUrl, "/")
      ensures operations == []
    {
      this.title := title;
      this.version := version;
      this.description := description;
      this.swaggerUiDistUrl := TrimSuffix(swaggerUiDistUrl, "/");
      operations := [];
    }

    /** `Add`: normalises the path, asks the reflector for an operation
        context (`contextError` is its refusal), sets the default ID, runs
        the annotations in order and adds the operation (`addError` is the
        reflector's refusal). */
    method Add(verb: string, path: string, annotations: seq<Annotation>,
               contextError: Option<string>, addError: Option<string>) returns (err: Option<string>)
      modifies this
      ensures contextError.Some? ==> err == contextError && operations == old(operations)
      ensures contextError.None? ==> err == addError
      ensures contextError.None? && addError.Some? ==> operations == old(operations)
      ensures err.None? ==> operations == old(operations) + [AnnotatedAll(DefaultOperation(verb, path), annotations)]
      ensures title == old(title) && version == old(version) && description == old(description)
      ensures swaggerUiDistUrl == old(swaggerUiDistUrl)
    {
      var normalized := NormalizePathParameters(path);
      if contextError.Some? {
        return contextError;
      }
      var oc := NewOperation(verb, normalized);
      oc := oc.(id := verb + "-" + normalized);
      var i := 0;
      while i < |annotations|
        invariant 0 <= i <= |annotations|
        invariant oc == AnnotatedAll(DefaultOperation(verb, path), annotations[..i])
      {
        assert annotations[..i + 1][..i] == annotations[..i];
        oc := Annotated(oc, annotations[i]);
        i := i + 1;
      }
      assert annotations[..i] == annotations;
      if addError.Some? {
        return addError;
      }
      operations := operations + [oc];
      return None;
    }
  }

  /** `TrimSuffix(url, "/")` removes one slash and no more. */
  lemma DistUrlTrim(url: string)
    ensures url != [] && url[|url| - 1] == '/' ==> TrimSuffix(url, "/") == url[..|url| - 1]
    ensures url == [] || url[|url| - 1] != '/' ==> TrimSuffix(url, "/") == url
  {
  }
}
