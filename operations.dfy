/** The operation context of the openapi-go reflector, reduced to the
    fields the annotations of this library set: an operation being built
    for one method and path. The reflector's schema generation is not part
    of the model; a request or response structure is named by its Go type. */
module OperationContext {

  /** One request or response body: the Go type it is reflected from ("" for
      none), its status (0 for a request), its content type ("" when none is
      given) and whether the schema is marked as binary. */
  datatype ContentUnit = ContentUnit(structure: string, status: int, contentType: string, binary: bool)

  datatype Operation = Operation(
    verb: string,
    path: string,
    id: string,
    summary: string,
    description: string,
    deprecated: bool,
    tags: seq<string>,
    requests: seq<ContentUnit>,
    responses: seq<ContentUnit>)

  /** `r.NewOperationContext(verb, path)` when it succeeds: nothing set yet. */
  function NewOperation(verb: string, path: string): (op: Operation)
    ensures op.verb == verb && op.path == path && op.id == []
    ensures op.tags == [] && op.requests == [] && op.responses == [] && !op.deprecated
  {
    Operation(verb, path, [], [], [], false, [], [], [])
  }

  const JsonContentType: string := "application/json"
}
