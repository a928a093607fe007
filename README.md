# common-lib-go, modelled in Dafny

This project models the deterministic core of oslokommune's `common-lib-go`,
a library of Go helpers for services running on AWS, and proves properties
of that model. The clock, the local time zone, the environment, the AWS
SDK, the HTTP transport and the STOMP broker become parameters: either a
function from a request to the service's answer, or a sequence of answers.

The modules follow the library's packages:

- `LocalTimeJson`, `LocalTimeTypes` (localtime): three fixed-layout time
  codecs and their JSON wrappers. These are RFC 3339 date-time with a
  zone-less fallback read as local time, RFC 3339 full-date, and
  `DD.MM.YYYY hh:mm:ss`. An instant is a UTC calendar record; the local
  zone is a fixed offset in minutes. `LocalTimeExamples` restates the
  package's tests for Oslo in winter.
- `Recovery` (aws/ginruntime/recovery.go): parsing a goroutine dump into
  frames, finding the panic frame, skipping the frames above it, and the
  recovery middleware.
- `ApiErrors`, `ErrorHandler` (aws/ginruntime): error normalisation to
  HTTP statuses and the JSON error-reporting middleware. `LegacyErrors`
  and `LegacyErrorHandler` do the same for the older `ginruntime` package.
- `OperationContext`, `OpenApiDoc`, `GinOpenApi`: the operation an
  OpenAPI reflector builds, the document of aws/ginruntime/openapi (path
  templates, default operation IDs, annotations), and the OpenAPI support
  of aws/ginruntime/openapi.go with its registration on the engine.
- `GinRuntime`, `Routing`: the two engines of aws/ginruntime. This covers
  option application in two passes (tracing before OpenAPI), routes,
  middleware order, last-in-first-out shutdown callbacks and the
  `LOG_LEVEL` mapping. `Gin` holds the parts of gin and zerolog they
  touch.
- `ConfigValues`, `ConfigReader`, `StrictConfigReader`: the per-field
  environment override of the two configuration readers.
- `HttpRequest`, `HttpClient` (httpcomm): header assembly and status
  classification.
- `CloudWatch`, `Ecs`, `Stomp`, `DbConfig`: the log-stream filter,
  pagination and metric averaging; the container-image rollout; the
  content type and reconnect-once publishing; the database configuration
  record.
- `Text`, `Wrappers`: string helpers for the parts of Go's `strings` and
  `strconv` in use, and `Option`/`Result`.

Where the code changes state in place (the engine's route table and
shutdown list, the request context, the configuration struct, the client
and frame objects), the model is a class whose methods are proved against
specification functions. Pure code is modelled as functions and lemmas.

Where a test expects something the code does not do, the model follows
the code. `httpcomm/request_test.go:38-51` expects a response on 404;
`aws/configurationreader/reader_test.go:112-121` expects a panic for a
missing bool; `aws/ginruntime/openapi/openapi_test.go:17` expects `{}`.

## Model

| member | source | states |
|---|---|---|
| ApiErrors.ErrorText | aws/ginruntime/errors.go:17-23 | without a reason the text is the status text alone; with one it is the status text, `": "` and the reason, and has exactly that length |
| ApiErrors.ErrorTextReason | aws/ginruntime/errors.go:17-23 | the reason can be read back from the end of the text, and a reason always changes the text |
| ApiErrors.BadRequest | aws/ginruntime/errors.go:49-51 | status 400 ("Bad Request") with the given reason |
| ApiErrors.Unauthorized | aws/ginruntime/errors.go:53-55 | status 401 ("Unauthorized") with the given reason |
| ApiErrors.Forbidden | aws/ginruntime/errors.go:57-59 | status 403 ("Forbidden") with the given reason |
| ApiErrors.NotFound | aws/ginruntime/errors.go:61-63 | status 404 ("Not Found") with the given reason |
| ApiErrors.UnprocessableEntity | aws/ginruntime/errors.go:65-67 | status 422 ("Unprocessable Entity") with the given reason |
| ApiErrors.FailedDependency | aws/ginruntime/errors.go:69-71 | status 424 ("Failed Dependency") with the given reason |
| ApiErrors.InternalServerError | aws/ginruntime/errors.go:73-75 | status 500 ("Internal Server Error") with the given reason |
| ApiErrors.NotImplemented | aws/ginruntime/errors.go:77-79 | status 501 ("Not Implemented") with the given reason |
| ApiErrors.Normalize | aws/ginruntime/errors.go:26-47 | nil stays nil; an API error is returned as it is; an HTTP error becomes 404, 403 or 424 by its status code, with the HTTP error's text as reason; any other error becomes 500 with a fixed reason |
| ApiErrors.NormalizeStatus | aws/ginruntime/errors.go:26-47 | a normalised error keeps an API error's status or has one of 403, 404, 424, 500, always with a known status text; other errors never leak their text |
| ApiErrors.NormalizeIdempotent | aws/ginruntime/errors.go:31-33 | normalising a normalised error changes nothing |
| ErrorHandler.ExtraErrorEntries | aws/ginruntime/errorHandler.go:33-35 | one warning per error after the first, in order, the k-th numbered from 0 and naming the request's method and URL |
| ErrorHandler.ResponseLevel | aws/ginruntime/errorHandler.go:37-41 | error level exactly for statuses of 500 and above, warning level exactly below |
| ErrorHandler.ErrorResponse | aws/ginruntime/errorHandler.go:27-31 | no response exactly when there are no errors; otherwise the status is the first error's, normalised, and the body is `{"error": text}` with that error's text |
| ErrorHandler.FirstErrorWins | aws/ginruntime/errorHandler.go:31 | errors after the first never change the response |
| ErrorHandler.ErrorResponseStatuses | aws/ginruntime/errorHandler.go:31 | an unauthorised API error answers 401; HTTP 404 and 403 keep their status; any other HTTP status answers 424 |
| ErrorHandler.PlainErrorResponse | aws/ginruntime/errorHandler.go:31-43 | a plain error answers 500 with the fixed text, whatever its own message |
| ErrorHandler.ExtraErrorEntriesSnoc | aws/ginruntime/errorHandler.go:33-35 | one more extra error adds exactly its warning, numbered after the others |
| ErrorHandler.LogExtraErrors | aws/ginruntime/errorHandler.go:33-35 | the loop logs exactly the warnings of `ExtraErrorEntries`, in order |
| ErrorHandler.LogExtraError | aws/ginruntime/errorHandler.go:34 | one loop turn appends the warning for error number i |
| ErrorHandler.ExtraErrorEntriesPrefix | aws/ginruntime/errorHandler.go:33-35 | the warnings for the first i+1 extra errors are those for the first i, then the warning numbered i |
| ErrorHandler.JsonErrorReporter | aws/ginruntime/errorHandler.go:15-46 | runs the chain first; an aborted request or one without errors is left as the chain left it, with nothing logged; otherwise the warnings, then the response entry, are logged, the first error's response is written after what the chain sent, and the request is aborted |
| ErrorHandler.Report | aws/ginruntime/errorHandler.go:31-44 | on a request with errors: the warnings and the response entry are logged, the first error's response is written on the response writer as it stands, and the request is aborted |
| ErrorHandler.ReportedResponse | aws/ginruntime/errorHandler.go:43 | the error response goes out alone when nothing was sent before; otherwise the status first sent stands and the error body follows the earlier bodies |
| LegacyErrors.ErrorText | ginruntime/errors.go:6-27 | the `Error()` text of each kind: an API error's message, a database error's wrapped message, "Unauthorized" for the unauthorised error |
| LegacyErrors.ApiErrorJson | ginruntime/errors.go:10-14 | an API error serialises as an object with exactly `code` and `message`, in that order |
| LegacyErrors.DetailsNotSerialised | ginruntime/errors.go:13 | the details never reach the JSON: two errors differing only in details serialise alike |
| LegacyErrors.ParseError | ginruntime/errorHandler.go:30-47 | an API error value is used as it is; a database error becomes 500 with its own message, its code ignored; anything else becomes 500 "Internal Server Error" without details |
| LegacyErrors.LogLevel | ginruntime/errorHandler.go:59-67 | error level exactly for codes 500-599, warning level for every other code |
| LegacyErrors.NonApiErrorsAre500 | ginruntime/errorHandler.go:30-47 | every kind but an API error value gives a 500 response logged at error level |
| LegacyErrorHandler.LogEntry | ginruntime/errorHandler.go:59-67 | the entry's level follows `LogLevel` of the code and it carries the parsed message |
| LegacyErrorHandler.ErrorResponse | ginruntime/errorHandler.go:26-52 | no response exactly when there are no errors; otherwise the status is the first error's parsed code |
| LegacyErrorHandler.FirstErrorWins | ginruntime/errorHandler.go:30 | errors after the first never change the response |
| LegacyErrorHandler.ErrorResponseExamples | ginruntime/errorHandler.go:30-52 | an API error answers its own code and `{"code", "message"}`; a database error answers 500 with its wrapped message; a pointer to an API error and the unauthorised error answer 500 "Internal Server Error" |
| LegacyErrorHandler.JsonErrorReporter | ginruntime/errorHandler.go:15-57 | runs the chain first; an aborted request or one without errors is left as the chain left it, with nothing logged; otherwise exactly one entry is logged for the parsed first error, its response is written after what the chain sent, and the request is aborted |
| LegacyErrorHandler.ReportedResponse | ginruntime/errorHandler.go:52 | the parsed error's response goes out alone when nothing was sent before; otherwise the status first sent stands and the error body follows the earlier bodies |
| Gin.Reversed | aws/ginruntime/routing.go:62-67 | the order deferred calls run in: the i-th element is the i-th from the end |
| Gin.ReversedPermutes | aws/ginruntime/routing.go:62-67 | reversing keeps every element and its multiplicity, so every callback runs exactly once |
| Routing.VerbOf | aws/ginruntime/routing.go:69-82 | a verb exactly for the five constants GET=0 through DELETE=4, each to its own name |
| Routing.VerbsDistinct | aws/ginruntime/routing.go:69-82 | two different method constants register under two different verbs |
| Routing.GinEngine.constructor | aws/ginruntime/routing.go:30-56 | the error handler, CORS with credentials, every origin, the two headers and `OPTIONS`, then gin's recovery, in that order; no routes, no tracing, no callbacks |
| Routing.GinEngine.OnShutdown | aws/ginruntime/routing.go:58-60 | appends the callback and changes nothing else |
| Routing.GinEngine.ShutdownCallbacks | aws/ginruntime/routing.go:62-67 | the callbacks run in reverse registration order and the list is emptied; nothing else changes |
| Routing.GinEngine.SetMethodHandler | aws/ginruntime/routing.go:69-82 | registers one route under the constant's verb, and nothing for any other integer |
| Routing.GinEngine.AddRoute | aws/ginruntime/routing.go:88-94 | without a group the route goes under the root group `/`; otherwise as `SetMethodHandler` |
| Routing.GinEngine.Use | aws/ginruntime/routing.go:105-108 | appends the middleware in order and changes nothing else |
| GinRuntime.IsRunningAsLambda | aws/ginruntime/ginruntime.go:77-79 | true exactly when `AWS_LAMBDA_FUNCTION_NAME` is set to a non-empty value |
| GinRuntime.LevelFor | aws/ginruntime/ginruntime.go:82-95 | DEBUG, ERROR and TRACE select their levels; every other value, unset and empty included, gives info |
| GinRuntime.LevelFieldValue | aws/ginruntime/ginruntime.go:106-108 | the upper-cased level name has the length of the name |
| GinRuntime.LevelFieldValues | aws/ginruntime/ginruntime.go:82-108 | log lines carry TRACE, DEBUG, INFO and ERROR, and each of these reads back as its level through LOG_LEVEL |
| GinRuntime.ConfigureLogging | aws/ginruntime/ginruntime.go:81-117 | the level defaults to info and otherwise follows LOG_LEVEL; output goes to the console writer exactly when not on Lambda |
| GinRuntime.OptionConstructors | aws/ginruntime/options.go:36-74 | `WithOpenAPI` fills only the OpenAPI part; `WithXRayTracing` fills only the tracing part, leaving provider and propagator unset; `WithTracing` fills only the tracing part, with both given |
| GinRuntime.WithOpenAPI | aws/ginruntime/options.go:36-50 | no contract of its own: `OptionConstructors` states it fills only the OpenAPI part |
| GinRuntime.WithXRayTracing | aws/ginruntime/options.go:57-63 | no contract of its own: `OptionConstructors` states it fills only the tracing part, with no provider and no propagator |
| GinRuntime.WithTracing | aws/ginruntime/options.go:66-74 | no contract of its own: `OptionConstructors` states it fills only the tracing part, with the given provider and propagator |
| GinRuntime.OptionOrderIrrelevant | aws/ginruntime/options.go:76-90 | swapping an OpenAPI option with a tracing option changes neither pass |
| GinRuntime.SpanMiddleware | aws/ginruntime/options.go:124 | one span middleware per tracing option, in order, each for that option's service |
| GinRuntime.TracerShutdowns | aws/ginruntime/options.go:126-131 | n shutdown callbacks, all of them the tracer shutdown |
| GinRuntime.DocRoutesOf | aws/ginruntime/options.go:134-139 | two routes per enabled OpenAPI option |
| GinRuntime.TracingOptsAppend | aws/ginruntime/options.go:77-82 | the tracing options of a list are those of its prefix followed by those of its suffix |
| GinRuntime.TracingFatalSnoc | aws/ginruntime/options.go:98-132 | a pass over one more option is fatal exactly when the shorter pass was, routes exist, or the new option fails by itself |
| GinRuntime.TracingFatalExtends | aws/ginruntime/options.go:77-82 | once the pass is fatal, later options do not change that |
| GinRuntime.TracingSnoc | aws/ginruntime/options.go:124-131 | one more tracing option adds exactly one span middleware and one shutdown callback |
| GinRuntime.GinEngine.constructor | aws/ginruntime/ginruntime.go:29-64 | logging configured from the environment; the error handler, the access logger skipping every path, CORS and the panic recovery, in that order; no tracing and no callbacks; OpenAPI enabled exactly when an option asks for it, with the last such option's document and two routes per such option |
| GinRuntime.GinEngine.OnShutdown | aws/ginruntime/ginruntime.go:66-68 | appends the callback and changes nothing else |
| GinRuntime.GinEngine.ShutdownCallbacks | aws/ginruntime/ginruntime.go:70-75 | the callbacks run in reverse registration order and the list is emptied; nothing else changes |
| GinRuntime.GinEngine.EnableOpenAPI | aws/ginruntime/options.go:134-139 | a fresh document built from the options, its distribution URL without a trailing slash, and GET /openapi.json and GET /docs appended to the routes |
| GinRuntime.GinEngine.EnableTracing | aws/ginruntime/options.go:98-132 | fatal exactly when routes exist, the default X-Ray provider cannot be created, or the service name is empty; otherwise the given or default provider and propagator are stored, one span middleware is appended and one shutdown callback registered |
| GinRuntime.GinEngine.TraceStep | aws/ginruntime/options.go:78-81 | one tracing option extends the traced state by exactly that option, or is fatal |
| GinRuntime.GinEngine.TracingTurn | aws/ginruntime/options.go:77-82 | one turn of the tracing loop keeps the traced state of the prefix, or ends with the whole pass fatal |
| GinRuntime.GinEngine.ApplyTracing | aws/ginruntime/options.go:77-82 | fatal exactly when some tracing option meets existing routes or fails by itself; otherwise one span middleware and one shutdown callback per tracing option, and the last option's provider and propagator |
| GinRuntime.GinEngine.ApplyOpenApi | aws/ginruntime/options.go:84-89 | two routes per OpenAPI option and the last option's document; tracing, middleware and callbacks unchanged |
| GinRuntime.GinEngine.Apply | aws/ginruntime/options.go:76-90 | the tracing pass, then the OpenAPI pass: fatal exactly as the tracing pass decides, so routes added by the OpenAPI pass are never seen by the tracing check |
| GinRuntime.GinEngine.TracingEnabled | aws/ginruntime/options.go:92-94 | no contract of its own: `EnableTracing` and `Apply` state when a provider is set |
| GinRuntime.GinEngine.OpenAPIEnabled | aws/ginruntime/options.go:52-54 | no contract of its own: the constructor, `EnableOpenAPI` and `Apply` state when a document is set |
| OpenApiDoc.RunLength | aws/ginruntime/openapi/openapi.go:61 | the run after a `:` is the longest prefix holding neither `/` nor `$`: every character in it is allowed and the next one, if any, is `/` or `$` |
| OpenApiDoc.NormalizePathParameters | aws/ginruntime/openapi/openapi.go:60-63 | no contract of its own: `NormalizeColon`, `NormalizeWithoutColon` and `NormalizeRoundTrip` state that each `:run` becomes `{run}`, a path without `:` is unchanged, and the rewrite is undone on every brace-free path |
| OpenApiDoc.NormalizeWithoutColon | aws/ginruntime/openapi/openapi.go:60-63 | a path without `:` is left as it is |
| OpenApiDoc.DenormalizeAppend | aws/ginruntime/openapi/openapi.go:60-63 | the reverse rewrite, used as partner, works piece by piece |
| OpenApiDoc.DenormalizeTemplate | aws/ginruntime/openapi/openapi.go:62 | a `{run}` template reads back as `:run` |
| OpenApiDoc.NormalizeColon | aws/ginruntime/openapi/openapi.go:61-62 | a `:` and its run become the run in braces, and the rest of the path is rewritten the same way |
| OpenApiDoc.NormalizeRoundTrip | aws/ginruntime/openapi/openapi.go:60-63 | for a path without braces, turning every template back into a gin parameter gives the original path: the rewrite loses nothing |
| OpenApiDoc.NormalizeExample | aws/ginruntime/openapi/openapi.go:60-63 | `/:path` becomes `/{path}` |
| OpenApiDoc.AnnotatedAllEffect | aws/ginruntime/openapi/openapi.go:53-55 | annotations keep method and path, leave the ID of the last `ID` annotation (the default ID otherwise), and add their response bodies after the existing ones in list order |
| OpenApiDoc.IdAnnotationOverrides | aws/ginruntime/openapi/openapi.go:51-55 | an `ID` annotation followed by no other `ID` replaces the default ID |
| OpenApiDoc.LastIdSkips | aws/ginruntime/openapi/annotation.go:29-31 | annotations other than `ID` never change the ID |
| OpenApiDoc.DefaultOperation | aws/ginruntime/openapi/openapi.go:44-51 | the operation is built on the normalised path and its ID is `METHOD-path` on that path |
| OpenApiDoc.DefaultIdExample | aws/ginruntime/openapi/openapi.go:44-51 | GET on `/:path` gets the ID `GET-/{path}` |
| OpenApiDoc.OpenAPI.constructor | aws/ginruntime/openapi/openapi.go:20-36 | the document holds the title, version and description and no operations; one trailing `/` of the dist URL is dropped |
| OpenApiDoc.OpenAPI.Add | aws/ginruntime/openapi/openapi.go:43-58 | an error from creating the operation is returned and nothing is added; otherwise the reflector's answer is returned, and on success exactly the annotated default operation is appended; the document's info never changes |
| OpenApiDoc.DistUrlTrim | aws/ginruntime/openapi/openapi.go:25 | one trailing slash is removed and no more; a URL without one is unchanged |
| OperationContext.NewOperation | aws/ginruntime/openapi/openapi.go:46 | a new operation context carries the method and path and nothing else: no ID, tags, bodies or deprecation |
| GinOpenApi.ResponseUnits | aws/ginruntime/openapi.go:33-39 | one JSON response unit per status of the map, in iteration order, each with its status and structure |
| GinOpenApi.AnnotatedAllKeeps | aws/ginruntime/openapi.go:19-39 | annotations keep the verb and the path as given, and the last tag list wins |
| GinOpenApi.GetMethodName | aws/ginruntime/openapi.go:93-109 | a verb exactly for the five method constants; any other integer ends the process |
| GinOpenApi.MethodNameMatchesRoute | aws/ginruntime/openapi.go:93-109 | the document names an operation with the same verb the route is registered under |
| GinOpenApi.OpenAPI.constructor | aws/ginruntime/openapi.go:42-48 | a document with the given title, version and description and no operations |
| GinOpenApi.OpenAPI.Add | aws/ginruntime/openapi.go:111-123 | an unknown method constant ends the process; an error creating the context is returned first; otherwise the reflector's answer is returned, and on success exactly the operation on the path as given, annotated in order, is appended |
| GinOpenApi.EnableOpenAPI | aws/ginruntime/openapi.go:41-91 | a fresh, empty document with the given info, and GET /openapi.json and GET /docs appended under the root group; middleware and callbacks unchanged |
| Recovery.ErrorText | aws/ginruntime/recovery.go:73-75 | `panic in `, the goroutine, `: `, the reason and a final `+`, with the goroutine and the reason recoverable from their positions |
| Recovery.Skip | aws/ginruntime/recovery.go:77-90 | a negative count skips nothing; a count within the stack drops that many frames; a larger one keeps only the last frame; goroutine and reason are kept and at least one frame always remains |
| Recovery.LastPanicFrame | aws/ginruntime/recovery.go:97-106 | none exactly when no frame matches both panic patterns; otherwise a matching frame with no match after it |
| Recovery.InternalFrames | aws/ginruntime/recovery.go:108-111 | the count is 0 or leaves at least one frame |
| Recovery.EstimateNumberOfInternalFrames | aws/ginruntime/recovery.go:96-112 | the backward scan that stops at the first panic frame met returns exactly `InternalFrames` |
| Recovery.SkipFramesAfterPanic | aws/ginruntime/recovery.go:92-94 | no contract of its own: `SkipFramesAfterPanicKeeps` states which frames survive, and `LoggedStackAfterPanic` what of them is logged |
| Recovery.SkipFramesAfterPanicKeeps | aws/ginruntime/recovery.go:92-112 | the frames after the last panic frame are kept and hold no panic frame; the whole stack is kept when the panic frame is the last one; without a panic frame the first frame is dropped when there are at least two |
| Recovery.ParseFrameFields | aws/ginruntime/recovery.go:125-136 | a parsed file never holds a `:`, a parsed line neither a `:` nor a space, and a location without `:` is all file with an empty line |
| Recovery.ParseFrame | aws/ginruntime/recovery.go:127-136 | no contract of its own: `ParseFrameFields` bounds its fields and `ParseFrameRoundTrip` reads a location in Go's dump format back |
| Recovery.SplitPieces | aws/ginruntime/recovery.go:128-134 | the pieces of `strings.Split` never contain the separator and are made of the text's characters |
| Recovery.ParseFrameAt | aws/ginruntime/recovery.go:127-136 | a trimmed location `file:tail` gives that file and the tail up to its first space |
| Recovery.TrimLocation | aws/ginruntime/recovery.go:127 | the tab before a location and nothing inside it is trimmed |
| Recovery.ParseFrameRoundTrip | aws/ginruntime/recovery.go:125-136 | a location line in Go's dump format, tab, file, `:`, line and offset, parses back to that file and line |
| Recovery.Pairs | aws/ginruntime/recovery.go:121 | one value per pair of lines, an odd last line ignored |
| Recovery.PairsAt | aws/ginruntime/recovery.go:125-126 | value i comes from lines 2i and 2i+1 |
| Recovery.FramesOf | aws/ginruntime/recovery.go:121-137 | one frame per pair of lines, an odd last line ignored |
| Recovery.GetStack | aws/ginruntime/recovery.go:116-139 | the goroutine is the first line without one trailing `:`; the frames are exactly `FramesOf` of the other lines |
| Recovery.ReadFrames | aws/ginruntime/recovery.go:121-137 | the loop over the preallocated array fills it with exactly `FramesOf` of the lines |
| Recovery.ReadFrame | aws/ginruntime/recovery.go:125-136 | one loop turn computes frame i of `FramesOf` |
| Recovery.Halves | aws/ginruntime/recovery.go:121 | `len(lines)/2` pairs fit in the lines with at most one line over |
| Recovery.FrameMap | aws/ginruntime/recovery.go:44-48 | a frame renders as a map with exactly the keys `file`, `line` and `function` |
| Recovery.FrameMapInverse | aws/ginruntime/recovery.go:44-48 | the map gives the frame back |
| Recovery.FrameMaps | aws/ginruntime/recovery.go:43-50 | one map per frame, as many as there are frames |
| Recovery.FrameMapsInverse | aws/ginruntime/recovery.go:43-50 | the maps give every frame back, in order |
| Recovery.StackTraceMarshaller | aws/ginruntime/recovery.go:35-51 | a stack trace gives `FrameMaps` of its stack (one map per frame, in order) and logs nothing; any other error gives nothing and logs one warning |
| Recovery.RecoveryMiddleware | aws/ginruntime/recovery.go:60-71 | without a panic the request is as the chain left it and nothing is logged; after a panic exactly one error entry is logged, carrying the text of the trace and, as `.Stack()` asks, the marshalled frames left after skipping, and the request is aborted with a status-only 500 on the response writer as the chain left it |
| Recovery.PanicResponse | aws/ginruntime/recovery.go:67 | after a panic an empty 500 goes out when nothing was sent; otherwise what was sent stands, status included |
| Recovery.LoggedStackAfterPanic | aws/ginruntime/recovery.go:62-66 | the logged stack is the maps of exactly the frames after the last panic frame, when that frame is below the top |
| ConfigValues.Zero | aws/configurationreader/reader.go:21 | the zero value `var cfg T` holds has the field's kind and is zero |
| ConfigValues.Zeros | aws/configurationreader/reader.go:21 | the zero struct has one zero value of the right kind per field |
| ConfigValues.ParseBool | aws/configurationreader/reader.go:56 | `strconv.ParseBool`: true exactly for 1, t, T, TRUE, true, True; false exactly for 0, f, F, FALSE, false, False; an error otherwise |
| ConfigValues.ParseFormatBool | aws/configurationreader/reader.go:56 | the text `strconv.FormatBool` gives reads back as the same bool |
| ConfigValues.SignedValue | aws/configurationreader/reader.go:64 | a value exactly for a non-empty run of digits whose signed value fits a 64-bit `int`, and then that value |
| ConfigValues.Atoi | aws/configurationreader/reader.go:64 | `strconv.Atoi`: any value it accepts lies in the 64-bit range |
| ConfigValues.AtoiIntText | aws/configurationreader/reader.go:64 | every 64-bit integer reads back from its decimal text |
| ConfigValues.AtoiNegative | aws/configurationreader/reader.go:64 | a minus sign and digits read back as the negative value, down to the 64-bit minimum |
| ConfigValues.AtoiNatural | aws/configurationreader/reader.go:64 | digits read back as their value, up to the 64-bit maximum |
| ConfigValues.AtoiRefuses | aws/configurationreader/reader.go:64-67 | the empty text, a bare sign, and text starting with anything but a digit or sign are refused |
| ConfigValues.Override | aws/configurationreader/reader.go:51-70 | strings are taken verbatim, bools through `ParseBool` and ints through `Atoi`, panicking exactly when these refuse; fields of any other kind are left alone; the kind never changes |
| ConfigValues.VariableName | aws/configurationreader/reader.go:39-42 | the aws reader reads the `env` tag, falling back to `json` when it is empty; the other reader reads only `json` |
| ConfigValues.FieldStep | aws/configurationreader/reader.go:44-71 | a missing variable panics, naming it, exactly for a zero field (a bool exempt in the aws reader); otherwise an absent variable keeps the value, a set one overrides an exported field and leaves an unexported one |
| ConfigValues.ReadFields | aws/configurationreader/reader.go:33-72 | a successful loop gives one value per field |
| ConfigValues.ReadFieldsSuccess | aws/configurationreader/reader.go:33-72 | the loop succeeds exactly when every field's step does, and then each field holds its own step's value |
| ConfigValues.ReadFieldsFailure | aws/configurationreader/reader.go:45-67 | a failing loop fails with the error of the first field whose step fails |
| ConfigValues.ReadFieldsSnoc | aws/configurationreader/reader.go:33-72 | one more turn after a successful prefix adds that field's value or fails with its error |
| ConfigValues.ReadFieldsStops | aws/configurationreader/reader.go:45-47 | once a prefix panics, the remaining fields are never reached |
| ConfigValues.ProgressField | aws/configurationreader/reader.go:36 | at turn i the field still holds its initial value |
| ConfigValues.ProgressStep | aws/configurationreader/reader.go:33-72 | a successful turn keeps the loop invariant with the field's new value |
| ConfigValues.ProgressPanics | aws/configurationreader/reader.go:45-47 | a panic at turn i is the loop's overall outcome |
| ConfigValues.ProgressDone | aws/configurationreader/reader.go:74 | after the last turn the struct is exactly what the loop specification gives |
| ConfigReader.Unreadable | aws/awsparameterstore/client.go:56-63 | a parameter that cannot be read or is not JSON leaves every field zero and returns its error |
| ConfigReader.Configured | aws/configurationreader/reader.go:20-75 | the aws reader never returns an error: it fills the struct or panics |
| ConfigReader.ReadConfiguration | aws/configurationreader/reader.go:20-75 | the store's error, if any, is only logged, and the loop starts from whatever the store wrote into the struct; its outcome is exactly `Configured` |
| ConfigReader.OverrideField | aws/configurationreader/reader.go:35-71 | one turn of the loop is exactly `FieldStep` under the aws reader's rule |
| ConfigReader.KeepsStoreValue | aws/configurationreader/reader.go:19 | a field whose variable is unset keeps the stored value |
| ConfigReader.VariableOverrides | aws/configurationreader/reader.go:19-70 | a set variable overrides an exported field: a string verbatim, a bool or int by its parsed value |
| ConfigReader.FromEnvironmentAlone | aws/configurationreader/reader.go:24-26 | with a store read that wrote nothing and every field set in the environment, the struct is built wholly from the environment |
| ConfigReader.MissingPanics | aws/configurationreader/reader.go:45-47 | a field the store left zero, with no variable and not a bool, makes the reader panic, whether or not the store read failed |
| ConfigReader.OverrideExample | aws/configurationreader/reader_test.go:69-88 | with the stored values and `host` and `flag` set, the port stays 8080 and the others are overridden |
| ConfigReader.AtoiPort | aws/configurationreader/reader_test.go:101 | "8080" reads as 8080 |
| ConfigReader.MissingBoolStaysFalse | aws/configurationreader/reader.go:45-47 | with a store read that wrote nothing and no `flag` variable, the flag stays false and nothing panics |
| ConfigReader.PartialStoreExample | aws/configurationreader/reader.go:24-26 | a stored value whose `times` has the wrong type still supplies `host` and `flag`, the type error is only logged, and `times` comes from the environment |
| StrictConfigReader.Configured | configurationreader/reader.go:13-65 | an error exactly when the store fails, and then the store's error |
| StrictConfigReader.ReadConfiguration | configurationreader/reader.go:13-65 | a store error is returned before any field is looked at; the loop's outcome is exactly `Configured` |
| StrictConfigReader.OverrideField | configurationreader/reader.go:28-61 | one turn of the loop is exactly `FieldStep` under the strict rule |
| StrictConfigReader.KeepsStoreValue | configurationreader/reader.go:34-40 | a field whose `json` variable is unset keeps the stored value |
| StrictConfigReader.FalseBoolContrast | configurationreader/reader.go:35-37 | a stored false bool with no variable panics in this reader, naming the `json` tag, while the aws reader keeps it false |
| HttpRequest.WithToken | httpcomm/request.go:24-30 | every given header is kept except `Authorization`, which a token replaces with "Bearer " and the token; no token leaves the headers as they are; no other key appears |
| HttpRequest.Bearer | httpcomm/request.go:29 | no contract of its own: `WithToken` and `CallHeaders` state that it is the `Authorization` value |
| HttpRequest.CreateRequest | httpcomm/request.go:18-33 | the constructor's error is returned with no request; otherwise the request carries the verb, URL and body and exactly the headers of `WithToken` |
| HttpRequest.Classify | httpcomm/request.go:70-80 | a response exactly for a status from 200 to 299, carrying the status and the body; any other status is an `HTTPError` with the status and the body |
| HttpRequest.Received | httpcomm/request.go:49-80 | a transport failure and an unreadable body are returned as errors, in that order, before the status is looked at; a response implies a 2xx answer whose body read fully |
| HttpRequest.Call | httpcomm/request.go:35-81 | a request that cannot be built is an error and nothing is sent; otherwise the result is what `Received` makes of the transport's answer to exactly the request `CreateRequest` builds |
| HttpRequest.NotFoundIsError | httpcomm/request_test.go:24-51 | a 404 "NOT FOUND" is an `HTTPError` with that status and body, a 200 "OK" a response |
| HttpClient.CallHeaders | httpcomm/client.go:73-80 | the token sets `Authorization`; every default header other than `Authorization` is sent; `Content-Type` is sent exactly when the verb carries one and no default replaces it; no other key appears |
| HttpClient.Client.constructor | httpcomm/client.go:39-58 | the client keeps the base URL, the default headers and the tracing switch, with a 30-second timeout |
| HttpClient.NewClient | httpcomm/client.go:33-59 | a URL that does not parse is returned as the error and no client is made; otherwise a new client with the parsed URL, the headers, the switch and the 30-second timeout |
| HttpClient.Client.FillHeaders | httpcomm/client.go:73-80 | setting the content type, the defaults one by one, then the token gives exactly `CallHeaders` |
| HttpClient.Endpoint | httpcomm/client.go:155-180 | a body exactly when the transport answers 200 and the body reads, and then that body; a status other than 200 is an error "status code=<status>, URL=<url>" before the body is read |
| HttpClient.StatusMessage | httpcomm/client.go:171 | no contract of its own: `StatusMessageInjective` states the text determines the status |
| HttpClient.Client.CallEndpoint | httpcomm/client.go:155-180 | the result is exactly `Endpoint` of the transport's answer to the request |
| HttpClient.Client.Send | httpcomm/client.go:61-153 | the request constructor's refusal is returned before anything is sent; otherwise the result is `Endpoint` of the answer to the request with the verb, URL, body and `CallHeaders` |
| HttpClient.Client.Post | httpcomm/client.go:61-83 | a "POST" with the body and the content type, as `Send` states |
| HttpClient.Client.Put | httpcomm/client.go:85-107 | a "PUT" with the body and the content type, as `Send` states |
| HttpClient.Client.Get | httpcomm/client.go:132-153 | a "GET" with no body and no content type, as `Send` states |
| HttpClient.Client.Delete | httpcomm/client.go:109-130 | a "DELETE" with no body and no content type, as `Send` states |
| HttpClient.CreatedContrast | httpcomm/client.go:170-172 | a 201 with a readable body is a response to `Call` but an error to a client call |
| HttpClient.StatusMessageInjective | httpcomm/client.go:171 | two statuses giving the same error text for one URL are the same status |
| LocalTimeJson.DaysIn | localtime/json.go:22 | months have 28 to 31 days, and February has 29 exactly in a Gregorian leap year |
| LocalTimeJson.NextDay | localtime/json.go:31 | the day after a valid date is a valid date |
| LocalTimeJson.PrevDay | localtime/json.go:31 | the day before a valid date is a valid date |
| LocalTimeJson.DayStepsInverse | localtime/json.go:31 | a step forward and a step back, in either order, give the same date |
| LocalTimeJson.Shift | localtime/json.go:9-31 | moving a wall clock by a zone offset gives a valid wall clock with the same seconds |
| LocalTimeJson.ShiftInverse | localtime/json.go:9-31 | moving a wall clock by an offset and back gives the same wall clock |
| LocalTimeJson.Two | localtime/json.go:9 | a two-digit field reads back as its value |
| LocalTimeJson.Four | localtime/json.go:9 | a four-digit year reads back as its value |
| LocalTimeJson.ZeroPad | localtime/json.go:9 | padding reaches at least the width |
| LocalTimeJson.Field | localtime/json.go:22 | a field that is read lies within its bounds |
| LocalTimeJson.ParseYMD | localtime/json.go:48 | `time.DateOnly` reads only valid dates with four-digit years |
| LocalTimeJson.ParseDMY | localtime/json.go:69 | the date of "02.01.2006" reads only valid dates |
| LocalTimeJson.ParseHMS | localtime/json.go:22-69 | "15:04:05" reads only hours below 24 and minutes and seconds below 60 |
| LocalTimeJson.ParseZone | localtime/json.go:22 | a zone read from "Z07:00" is a valid offset |
| LocalTimeJson.ParseRFC3339 | localtime/json.go:22 | `time.RFC3339` reads only valid wall clocks and offsets |
| LocalTimeJson.ParseZoneless | localtime/json.go:26 | the zone-less layout reads only valid wall clocks |
| LocalTimeJson.ParseNorwegian | localtime/json.go:69 | "02.01.2006 15:04:05" reads only valid wall clocks |
| LocalTimeJson.YMDRoundTrip | localtime/json.go:36-48 | a formatted date is ten characters and reads back as the same date |
| LocalTimeJson.DMYRoundTrip | localtime/json.go:57-69 | a day-month-year date is ten characters and reads back as the same date |
| LocalTimeJson.HMSRoundTrip | localtime/json.go:9-22 | a formatted clock is eight characters and reads back as the same hour, minute and second |
| LocalTimeJson.ZoneRoundTrip | localtime/json.go:9-22 | a formatted offset reads back as the same offset |
| LocalTimeJson.RFC3339TextRoundTrip | localtime/json.go:9-22 | an RFC 3339 text reads back as the same wall clock and offset |
| LocalTimeJson.ZonelessTextRoundTrip | localtime/json.go:22-30 | a text with no zone is refused by the RFC 3339 layout and read back by the zone-less one |
| LocalTimeJson.NorwegianTextRoundTrip | localtime/json.go:57-69 | a Norwegian text reads back as the same wall clock |
| LocalTimeJson.Quote | localtime/json.go:77-89 | the empty text stays empty; any other text gets a `"` at each end that lacks one and is otherwise unchanged |
| LocalTimeJson.Unquote | localtime/json.go:91-103 | texts shorter than two are unchanged; otherwise a leading and a trailing `"` are each dropped when present |
| LocalTimeJson.QuoteIdempotent | localtime/json.go:77-89 | quoting a quoted text changes nothing |
| LocalTimeJson.UnquoteQuote | localtime/json.go:77-103 | unquoting gives back any non-empty text with no `"` at its ends |
| LocalTimeJson.UnmarshalRFC3339 | localtime/json.go:12-33 | `null` gives no time and no error; a value without a `"` at both ends is refused with the fixed message; a zoned text is moved to UTC by its own offset, a zone-less one by the local offset; when both layouts fail, both errors are joined |
| LocalTimeJson.UnmarshalRFC3339Date | localtime/json.go:39-54 | `null` gives no time; a parsed date is midnight in the local zone of exactly the quoted year, month and day; it parses exactly when the quoted text is a valid date |
| LocalTimeJson.UnmarshalNorwegianDateTime | localtime/json.go:60-75 | `null` gives no time; a parsed text is a UTC instant whose local wall clock is the text's; it parses exactly when the text is a valid Norwegian timestamp |
| LocalTimeJson.MarshalRFC3339 | localtime/json.go:8-10 | no contract of its own: `QuoteFormatted` makes it a quoted, non-null JSON string, `RFC3339RoundTrip` unmarshals it back to the instant and `RFC3339TextStable` re-marshals read text unchanged |
| LocalTimeJson.MarshalRFC3339Date | localtime/json.go:35-37 | no contract of its own: `DateRoundTrip` unmarshals it to the local midnight of the same date and `DateTextStable` re-marshals read text unchanged |
| LocalTimeJson.MarshalNorwegianDateTime | localtime/json.go:56-58 | no contract of its own: `NorwegianRoundTrip` unmarshals it back to the instant and `NorwegianTextStable` re-marshals read text unchanged |
| LocalTimeJson.QuoteFormatted | localtime/json.go:78-89 | a non-empty rendering with no `"` at its ends is quoted on both sides, is a JSON string and unquotes to itself |
| LocalTimeJson.RFC3339RoundTrip | localtime/json.go:8-33 | unmarshalling a marshalled instant gives the same instant in UTC |
| LocalTimeJson.UnmarshalZoned | localtime/json.go:22-31 | a quoted RFC 3339 text is the instant its own offset gives, whatever the local zone |
| LocalTimeJson.RFC3339Unquoted | localtime/json.go:9 | an RFC 3339 rendering has no `"` at its ends |
| LocalTimeJson.NorwegianRoundTrip | localtime/json.go:56-75 | unmarshalling a marshalled Norwegian timestamp gives the same instant in UTC |
| LocalTimeJson.DateRoundTrip | localtime/json.go:35-54 | unmarshalling a marshalled date gives local midnight of the same local date, which marshals to the same text |
| LocalTimeJson.RFC3339TextStable | localtime/json.go:8-33 | a quoted RFC 3339 timestamp written at the local offset unmarshals and marshals back to the same text |
| LocalTimeJson.NorwegianTextStable | localtime/json.go:56-75 | a quoted Norwegian timestamp unmarshals and marshals back to the same text |
| LocalTimeJson.DateTextStable | localtime/json.go:35-54 | a quoted date unmarshals and marshals back to the same text |
| LocalTimeTypes.PlainIsStringBody | localtime/types.go:65 | text of plain characters is the body of a JSON string literal |
| LocalTimeTypes.AllPlainConcat | localtime/types.go:65 | joining plain texts gives a plain text |
| LocalTimeTypes.DigitsArePlain | localtime/types.go:65 | digits are plain characters |
| LocalTimeTypes.Plain3 | localtime/types.go:65 | three plain fields joined by a plain separator are plain |
| LocalTimeTypes.YMDPlain | localtime/types.go:108 | both date renderings are plain |
| LocalTimeTypes.HMSPlain | localtime/types.go:65 | a clock rendering is plain |
| LocalTimeTypes.ZonePlain | localtime/types.go:65 | an offset rendering is plain |
| LocalTimeTypes.RenderingsArePlain | localtime/types.go:65 | all three renderings are plain, so `encoding/json` accepts them once quoted |
| LocalTimeTypes.QuotedRendering | localtime/types.go:62-65 | a non-empty plain rendering quotes to a JSON string literal that is not `null` and unquotes to itself |
| LocalTimeTypes.StoreAsWritten | localtime/types.go:51-58 | the wrapper dereferences a nil pointer exactly when the helper returned no time and no error |
| LocalTimeTypes.NullDereferences | localtime/types.go:51-58 | unmarshalling `null` into any of the three wrappers panics, and no other input does; the methods' domain excludes it for that reason |
| LocalTimeTypes.DateTime.constructor | localtime/types.go:15-17 | the wrapper holds the given time |
| LocalTimeTypes.DateTime.MarshalJSON | localtime/types.go:48-50 | exactly `MarshalRFC3339` of the held time |
| LocalTimeTypes.DateTime.UnmarshalJSON | localtime/types.go:51-58 | on success the wrapper holds the parsed UTC instant; on failure it is unchanged and the error is returned |
| LocalTimeTypes.DateTimeString | localtime/types.go:72-78 | the text of a DateTime is its local wall clock in RFC 3339, without quotes |
| LocalTimeTypes.DateTime.String | localtime/types.go:72-78 | no contract of its own: `DateTimeString` gives the local RFC 3339 text and `DateTimeStringRoundTrip` parses it back |
| LocalTimeTypes.ParseDateTime | localtime/types.go:61-70 | a quoted timestamp that is not a JSON string literal is a syntax error; otherwise the result or error is `UnmarshalRFC3339`'s, in UTC |
| LocalTimeTypes.DateTimeStringRoundTrip | localtime/types.go:61-78 | parsing the text of a DateTime gives back its instant in UTC |
| LocalTimeTypes.Date.constructor | localtime/types.go:23-25 | the wrapper holds the given time |
| LocalTimeTypes.Date.MarshalJSON | localtime/types.go:83-85 | exactly `MarshalRFC3339Date` of the held time |
| LocalTimeTypes.Date.UnmarshalJSON | localtime/types.go:86-93 | on success the wrapper holds local midnight of the date; on failure it is unchanged and the error is returned |
| LocalTimeTypes.DateString | localtime/types.go:95-101 | the text of a Date is its local date, without quotes |
| LocalTimeTypes.Date.String | localtime/types.go:95-101 | no contract of its own: `DateString` gives the local date text and `DateStringRoundTrip` parses it back |
| LocalTimeTypes.ParseDate | localtime/types.go:104-113 | a quoted timestamp that is not a JSON string literal is a syntax error; otherwise the result or error is `UnmarshalRFC3339Date`'s, in the local zone |
| LocalTimeTypes.DateStringRoundTrip | localtime/types.go:95-113 | parsing the text of a Date gives local midnight of its local date, with the same text |
| LocalTimeTypes.NorwegianDateTime.constructor | localtime/types.go:31-33 | the wrapper holds the given time |
| LocalTimeTypes.NorwegianDateTime.MarshalJSON | localtime/types.go:118-120 | exactly `MarshalNorwegianDateTime` of the held time |
| LocalTimeTypes.NorwegianDateTime.UnmarshalJSON | localtime/types.go:122-129 | on success the wrapper holds the parsed UTC instant; on failure it is unchanged and the error is returned |
| LocalTimeTypes.NorwegianString | localtime/types.go:143-149 | the text of a NorwegianDateTime is its local wall clock as DD.MM.YYYY hh:mm:ss |
| LocalTimeTypes.NorwegianDateTime.String | localtime/types.go:143-149 | no contract of its own: `NorwegianString` gives the DD.MM.YYYY hh:mm:ss text and `NorwegianStringRoundTrip` parses it back |
| LocalTimeTypes.ParseNorwegianDateTime | localtime/types.go:132-141 | a quoted timestamp that is not a JSON string literal is a syntax error; otherwise the result or error is `UnmarshalNorwegianDateTime`'s, in UTC |
| LocalTimeTypes.NorwegianStringRoundTrip | localtime/types.go:132-149 | parsing the text of a NorwegianDateTime gives back its instant in UTC |
| LocalTimeExamples.ExampleDate | localtime/types_test.go:205-215 | 1 February 2020 renders as "2020-02-01" |
| LocalTimeExamples.ExampleClock | localtime/types_test.go:126-134 | a two-digit hour with 34 minutes and 56 seconds renders as "hh:34:56" |
| LocalTimeExamples.ExampleZone | localtime/types_test.go:40 | an offset of two hours renders as "+02:00" |
| LocalTimeExamples.ExampleZonedText | localtime/types_test.go:40 | 13:34:56 on 1 February 2020 at +02:00 renders as "2020-02-01T13:34:56+02:00" |
| LocalTimeExamples.ExampleZonelessText | localtime/types_test.go:58 | 12:34:56 on 1 February 2020 renders without a zone as "2020-02-01T12:34:56" |
| LocalTimeExamples.ShiftExamples | localtime/types_test.go:37-71 | 13:34:56 at +02:00 and 12:34:56 in Oslo in winter are both 11:34:56 UTC |
| LocalTimeExamples.ParseZonedExample | localtime/types_test.go:96-109 | "2020-02-01T13:34:56+02:00" parses to 11:34:56 UTC on the same day |
| LocalTimeExamples.ParseZonelessExample | localtime/types_test.go:111-124 | "2020-02-01T12:34:56" parses in Oslo to 11:34:56 UTC on the same day |
| LocalTimeExamples.ParseEmptyIsSyntaxError | localtime/types.go:62-68 | the empty timestamp quotes to nothing, which `encoding/json` refuses, for all three parsers |
| CloudWatch.Filtered | aws/awscloudwatch/client.go:101-114 | never more streams than given; which streams, how often and in what order are the lemmas below |
| CloudWatch.FilteredMembers | aws/awscloudwatch/client.go:101-114 | a stream is in the result exactly when it is in the input, was written to after the cutoff and, when both a container name and a task ARN are given, has a name containing both |
| CloudWatch.FilteredStep | aws/awscloudwatch/client.go:103-112 | one more stream is appended to the kept ones exactly when it is kept |
| CloudWatch.FilteredCounts | aws/awscloudwatch/client.go:101-114 | a kept stream appears in the result as often as in the input, a dropped one not at all |
| CloudWatch.FilteredKeepsOrder | aws/awscloudwatch/client.go:103-114 | the kept streams come in the order the service listed them |
| CloudWatch.SubsequenceSnoc | aws/awscloudwatch/client.go:108-111 | appending the same stream to the list and, optionally, to the kept streams keeps them a subsequence |
| CloudWatch.FetchLogStreams | aws/awscloudwatch/client.go:88-117 | the request names the group, newest first, at most ten streams; the service's error is returned as it is; a described stream with a nil pointer the filter reads panics; otherwise the result is exactly `Filtered` with the cutoff thirty minutes before now, in milliseconds |
| CloudWatch.FilterStreams | aws/awscloudwatch/client.go:101-114 | the loop panics exactly when some stream has no last event time, or a recent one has no name while both a container name and a task ARN are given; otherwise it ends with exactly `Filtered` |
| CloudWatch.RequestFor | aws/awscloudwatch/client.go:123-139 | every request keeps the group, the stream and the start time; a request after a token carries it and reads from the head |
| CloudWatch.Pages | aws/awscloudwatch/client.go:130-154 | one request per answer until the loop stops; a stopped loop made one request more than it kept pages, a loop that ran out of answers kept one page per request and no error; a starting token is never lost |
| CloudWatch.PagesContents | aws/awscloudwatch/client.go:141-151 | each kept page is the events of the answer to the same request, and each later request carries the forward token of the answer before it |
| CloudWatch.RequestsAfterFirstCarryToken | aws/awscloudwatch/client.go:135-139 | every request after the first carries a token and reads from the head |
| CloudWatch.AfterAfter | aws/awscloudwatch/client.go:150-151 | prefixing pages and requests twice is prefixing their concatenations |
| CloudWatch.PagesTurn | aws/awscloudwatch/client.go:141-151 | an answer that succeeds with a new token keeps its events, sends the next request with that token and goes on |
| CloudWatch.PagesLast | aws/awscloudwatch/client.go:142-148 | an error, or a token equal to the one sent, stops the loop with the token sent and the error, if any |
| CloudWatch.LoopTurns | aws/awscloudwatch/client.go:134-152 | one more turn of the loop keeps the invariant that what was gathered, followed by the rest, is `Pages` |
| CloudWatch.LoopStops | aws/awscloudwatch/client.go:142-148 | the turn that stops the loop gives exactly `Pages` |
| CloudWatch.FetchCloudwatchLogs | aws/awscloudwatch/client.go:120-155 | the pages, the next token, the error and the requests sent are exactly `Pages` of the request starting `interval` before now, from the tail, with the given token |
| CloudWatch.MetricRequest | aws/awscloudwatch/client.go:165-254 | four queries, each for the task family and the cluster, a 60-second period and the average, over the last ten minutes |
| CloudWatch.ModAdd | aws/awscloudwatch/client.go:269-276 | adding to a wrapped `uint32` total wraps like adding to the whole sum |
| CloudWatch.AccumulateValuesSums | aws/awscloudwatch/client.go:266-278 | after one series each counter is its old value plus the series' sum when the id is its own, modulo 2^32; only `cpu_reserved` values count datapoints |
| CloudWatch.TotalsWrap | aws/awscloudwatch/client.go:262-279 | after all series each counter is the sum of its metric's values modulo 2^32, and the datapoints the number of `cpu_reserved` values modulo 2^32 |
| CloudWatch.Average | aws/awscloudwatch/client.go:285 | an average never exceeds its total, for every non-zero count |
| CloudWatch.ReportedAsWritten | aws/awscloudwatch/client.go:281-285 | no datapoints give four zeros; otherwise the CPU averages fill the memory slots and the memory averages the CPU slots |
| CloudWatch.ReportedSwapsAverages | aws/awscloudwatch/client.go:285 | for every total, the return statement reports the CPU averages in the memory slots and the memory averages in the CPU slots |
| CloudWatch.Averages | aws/awscloudwatch/client.go:281-285 | no datapoints give four zeros; otherwise each slot holds the average of the metric it is named after |
| CloudWatch.AveragesNamed | aws/awscloudwatch/client.go:262-285 | each reported result is its own metric's wrapped sum over the wrapped number of `cpu_reserved` values |
| CloudWatch.ReportedNamed | aws/awscloudwatch/client.go:262-285 | as written, the memory results are the CPU series' wrapped totals and the CPU results the memory series' ones, each over the wrapped `cpu_reserved` count |
| CloudWatch.SwappedSlots | aws/awscloudwatch/client.go:285 | one `mem_used` value of 512, one `cpu_used` value of 3 and one `cpu_reserved` value: the return statement reports 3 as memory utilized, where the average is 512 |
| CloudWatch.FetchCpuAndMemoryUsage | aws/awscloudwatch/client.go:162-286 | a request error gives four zeros and the error; otherwise exactly `ReportedAsWritten` of the accumulated totals (the return statement's slots, CPU averages in the memory results and memory averages in the CPU results) and no error |
| CloudWatch.AccumulateResults | aws/awscloudwatch/client.go:265-279 | the outer loop gives exactly the totals of all series |
| CloudWatch.AccumulateSeries | aws/awscloudwatch/client.go:266-278 | the inner loop gives exactly the totals after one series' values |
| Ecs.TagsForFront | aws/awsecs/client.go:203-209 | dropping the last tag leaves exactly the tags of the map without its key |
| Ecs.TagsForNone | aws/awsecs/client.go:203-209 | no tags describe only the empty map |
| Ecs.RemoveAndPut | aws/awsecs/client.go:204-208 | a map is its entry for a key put back into the map without that key |
| Ecs.TagsForMap | aws/awsecs/client.go:203-209 | the tags built from a map are one per entry and describe exactly that map |
| Ecs.TagResource | aws/awsecs/client.go:202-218 | the request names the resource and carries exactly one tag per map entry, with its key and value; the error is the service's |
| Ecs.FirstContaining | aws/awsecs/client.go:265-271 | the index of the first container definition whose image contains the service name, or -1 when none does |
| Ecs.FindContainer | aws/awsecs/client.go:265-271 | the loop with `break` finds exactly `FirstContaining` |
| Ecs.UpdateEcsService | aws/awsecs/client.go:248-322 | the outcome and the calls made are exactly those of `Rollout` |
| Ecs.Rollout | aws/awsecs/client.go:248-319 | no contract of its own: `RolloutCalls`, `RolloutReadsFirstService`, `RolloutRegisters` and `RolloutWithoutMatch` state its calls and outcome |
| Ecs.RolloutCalls | aws/awsecs/client.go:248-322 | the service is described first; at most four calls, every call but the last succeeded, a failing last call's error is the outcome, and the service is updated exactly when all four calls succeed |
| Ecs.RolloutReadsFirstService | aws/awsecs/client.go:256-259 | the task definition read is that of the first service described |
| Ecs.RolloutRegisters | aws/awsecs/client.go:278-315 | the registration is the task definition read with the first container whose image contains the service name moved to the new image; the service is then pointed at the registered ARN without forcing a deployment |
| Ecs.RolloutWithoutMatch | aws/awsecs/client.go:273-276 | when no container's image contains the service name, the rollout fails with a message naming the new image, after two calls, and nothing is registered or updated |
| Ecs.StopInput | aws/awsecs/client.go:327-331 | the update forces a new deployment of the named service in the cluster and names no task definition |
| Ecs.StopEcsService | aws/awsecs/client.go:324-340 | exactly one update call; an error exactly when it fails, and then its error |
| Stomp.ContentTypeFor | queue/stomp.go:69-72 | XML exactly when the message starts with `<`, JSON otherwise, the empty message included |
| Stomp.Without | queue/stomp.go:80 | no header of the name is left; every other header is kept and nothing is added |
| Stomp.WithoutAbsent | queue/stomp.go:80 | deleting a header that is not there changes nothing |
| Stomp.Frame.constructor | queue/stomp.go:74-78 | the frame holds the command, the headers and the body it is built with |
| Stomp.Frame.Persist | queue/stomp.go:79-84 | the frame's headers become exactly `Persisted` of the old ones; command and body stay |
| Stomp.Persisted | queue/stomp.go:79-84 | `content-length` is gone from the headers the library built, every other header is kept, and `persistent: true` then `Destination` are appended last |
| Stomp.PersistedTwice | queue/stomp.go:79-84 | applying the option to its own result deletes nothing more and only appends the two headers again |
| Stomp.MessageFor | queue/stomp.go:68-85 | the message sent carries the destination, the body, the content type of `ContentTypeFor` and the headers of `Persisted` |
| Stomp.Session | queue/stomp.go:22-43 | a failing TLS dial, which verifies certificates, is the error; otherwise the STOMP handshake with the login, the 3-second heart-beats and STOMP 1.2 decides |
| Stomp.StompClient.constructor | queue/stomp.go:17-19 | the client holds the broker, the username and the password, and no connection |
| Stomp.StompClient.Connect | queue/stomp.go:22-46 | a session that is established replaces the connection and no error is returned; a failure is returned and the old connection stays; the credentials never change |
| Stomp.Publishing | queue/stomp.go:49-66 | one send; success or an error other than already-closed ends it; an already-closed error leads to one reconnect, whose error is returned, or else to one more send on the new connection, whose error is returned |
| Stomp.AtMostTwoSends | queue/stomp.go:49-66 | there are at most two sends, and the second follows a reconnect that worked |
| Stomp.StompClient.Send | queue/stomp.go:68-85 | on a client with a connection, exactly one send of `MessageFor` on that connection, returning the broker's answer as the error |
| Stomp.StompClient.Publish | queue/stomp.go:49-66 | the error, the new connection and the attempts are exactly `Publishing` from the old connection; the credentials never change |
| DbConfig.DbConf.constructor | db/config.go:13-21 | the configuration holds the credentials, the host, the port and the database it is given |
| DbConfig.DbConf.UpdateHostAndPort | db/config.go:24-28 | host and port are replaced, credentials and database stay, and the same configuration is returned |
| DbConfig.MapTwice | db/config.go:24-28 | mapping twice keeps only the second host and port |
| Text.TrimSuffix | aws/ginruntime/recovery.go:120 | `strings.TrimSuffix`: a present suffix is removed, leaving the text that the suffix completes; otherwise the text is unchanged |
| Text.IndexOf | aws/ginruntime/recovery.go:118 | the position of the first occurrence of the character, or -1 exactly when it does not occur |
| Text.Split | aws/ginruntime/recovery.go:118-134 | `strings.Split` always gives at least one part |
| Text.SplitHead | aws/ginruntime/recovery.go:118-134 | without the separator the text is its one part; with it, the first part is the text before its first occurrence and the rest splits the remainder |
| Text.SplitAt | aws/ginruntime/recovery.go:118-128 | a part free of the separator, then the separator, splits into that part followed by the parts of the rest |
| Text.Decimal | httpcomm/client.go:171 | the decimal text of a number is a non-empty run of digits |
| Text.IntText | httpcomm/client.go:171 | `%d` of an integer is never empty |
| Text.DigitsAppend | aws/configurationreader/reader.go:64 | one more digit multiplies the value by ten and adds the digit |
| Text.DecimalValue | httpcomm/client.go:171 | the decimal text of a number reads back as the number |
| Text.TrimLeftSpace | aws/ginruntime/recovery.go:127 | the longest suffix not starting with white space, everything dropped being white space |
| Text.TrimRightSpace | aws/ginruntime/recovery.go:127 | the longest prefix not ending with white space, everything dropped being white space |
| Text.TrimSpace | aws/ginruntime/recovery.go:127 | `strings.TrimSpace` leaves no white space at either end |
| Text.TrimIndented | aws/ginruntime/recovery.go:127 | a tab-indented location line trims to the location |
| Text.ToUpper | aws/ginruntime/ginruntime.go:107 | every character is upper-cased in place and the length is kept |
| HttpClient.IntTextInjective | httpcomm/client.go:171 | two integers with the same `%d` text are equal |
| HttpClient.DecimalInjective | httpcomm/client.go:171 | two numbers with the same decimal text are equal |
| HttpClient.IntTextSign | httpcomm/client.go:171 | the text starts with a minus sign exactly for a negative integer |
| HttpClient.Cancel | httpcomm/client.go:171 | equal texts with the same prefix and suffix around a part have equal parts |
| Gin.Logger.constructor | aws/ginruntime/errorHandler.go:34-40 | a new log has no entries |
| Gin.Logger.Log | aws/ginruntime/errorHandler.go:34-40 | one entry is appended, after all earlier ones |
| Gin.Logger.LogStack | aws/ginruntime/recovery.go:66 | one entry carrying the marshalled stack is appended, after all earlier ones |
| Gin.Written | aws/ginruntime/errorHandler.go:43 | the first write sends its status; once something is sent, a new status is ignored and a rendered body is appended |
| Gin.WriteAllSends | aws/ginruntime/errorHandler.go:18 | after any writes the status sent is that of the first write ever made and the bodies are all those rendered, in order; nothing is sent without a write |
| Gin.Context.constructor | aws/ginruntime/errorHandler.go:17-18 | a fresh request has no errors, is not aborted and has sent nothing |
| Gin.Context.Next | aws/ginruntime/errorHandler.go:18 | the rest of the chain appends its errors after those already recorded, may abort, and makes its writes on the response writer in order |
| Gin.Context.IndentedJSON | aws/ginruntime/errorHandler.go:43 | with nothing sent, the status and body go out; otherwise the status already sent stands and the body is appended; errors and the abort flag stay |
| Gin.Context.Abort | aws/ginruntime/errorHandler.go:44 | the request is aborted; errors and what was sent stay |
| Gin.Context.AbortWithStatus | aws/ginruntime/recovery.go:67 | the request is aborted; with nothing sent, the status goes out with no body, and otherwise what was sent stands; errors stay |

## Left out

- AWS client construction (`NewClient`, `NewLogsClient`, endpoint resolvers) and the one-line SDK forwards: their behaviour is the SDK's; each SDK call is a function parameter.
- The time-zone database, DST and `localtime/timezone.go`: the local zone is a fixed offset in minutes, of less than a day. Sub-second precision and the leniencies of Go's parser (fractional seconds, one-digit fields) are not modelled. Round trips are stated for four-digit years, the only ones the layouts read back.
- The clock: `time.Now()` is the parameter `now`, in Unix seconds.
- Floating point: CloudWatch metric values arrive already converted by `uint32(value)`; only the `uint32` wrap-around of the sums is modelled.
- CloudWatch.FetchCloudwatchLogs: the service is a finite sequence of answers, so the model stops when they run out; nothing in the code bounds the loop.
- CloudWatch.FetchCloudwatchLogs: a page always carries a forward token. A nil `NextForwardToken` is not modelled: Go dereferences it at aws/awscloudwatch/client.go:146 and panics when a token was sent, and otherwise goes on with no token.
- A status set without writing (`c.Status`) is not part of the response model; both middlewares set their own status right before they write it.
- Regular expressions: the patterns of recovery.go and openapi.go are stated directly as string predicates.
- `http.Header` canonicalisation: headers are a map with exact keys.
- Go map iteration order: header maps, tag maps and response maps are visited in an order the model leaves open, or given as a sequence.
- Stomp: `errors.As(err, &stomp.ErrAlreadyClosed)` is the flag `alreadyClosed` of the send error.
- Stomp.StompClient.Publish: requires a connection; on a client that never connected, Go dereferences a nil `*stomp.Conn`.
- Stomp.StompClient.Send: requires a connection; on a client that never connected, Go dereferences a nil `*stomp.Conn` and panics, which the model does not state.
- `Disconnect` (queue/stomp.go:88-90): a single library call, with no state of the client's own.
- `debug.Stack()`: the goroutine dump is a string parameter.
- Recovery.RecoveryMiddleware: requires a dump of at least one frame, as every dump holds the recovery code's own frames; `Skip` on an empty stack would panic on a negative slice bound.
- Recovery.Skip: requires a non-empty stack, for that reason.
- The panic reason's `%v` formatting: the reason is given as its text.
- LocalTimeTypes.DateTime.UnmarshalJSON: requires input other than `null`, on which the Go method dereferences a nil pointer and panics (`LocalTimeTypes.NullDereferences`).
- LocalTimeTypes.Date.UnmarshalJSON: requires input other than `null`, for the same reason.
- LocalTimeTypes.NorwegianDateTime.UnmarshalJSON: requires input other than `null`, for the same reason.
- `json.Unmarshal` in the `Parse*` functions: a check that the quoted text is a JSON string literal, then the type's `UnmarshalJSON`.
- Ecs: images, ARNs and task definitions are values, not pointers, so the nil dereferences of `*v.Image` and `*serviceDescription.Services[0].TaskDefinition` are not modelled; an empty service list is the outcome `IndexPanic`.
- Reflection in the configuration readers: a struct is a sequence of field descriptions (tags, kind, exported or not) and values.
- Tracing and logging side effects: OpenTelemetry and X-Ray wiring, span attributes (httpcomm/client.go:164-168), zerolog's global configuration, and the request and response dumps of `Call`. Log entries are kept only where a middleware's behaviour is to log.
- The two `GinEngine` types of aws/ginruntime (ginruntime.go and routing.go) are modelled as two modules, as the snapshot declares both. `enableOpenAPI` (aws/ginruntime/options.go:137-138) passes `nil` before the handler. Under routing.go's `AddRoute(group, path, method, handlers...)` that `nil` would be a handler. The model reads it as the annotations argument of the newer `AddRoute` the tests call (aws/ginruntime/error_test.go:18, aws/ginruntime/openapi_test.go:24), so each documentation route has one handler.

## Findings

| source | as written | input that shows it | evidently intended | confidence | as-written member | corrected member |
|---|---|---|---|---|---|---|
| aws/awscloudwatch/client.go:285 | returns the CPU averages in the named results `memoryUtilized` and `memoryReserved`, and the memory averages in `cpuUtilized` and `cpuReserved` | one `mem_used` value 512, one `cpu_used` value 3, one `cpu_reserved` value 1: `memoryUtilized` is 3 | each named result holds the average of its own metric | high, not executed | CloudWatch.ReportedAsWritten, CloudWatch.SwappedSlots, CloudWatch.ReportedNamed | CloudWatch.Averages, CloudWatch.AveragesNamed |
