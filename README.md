# typical-fetch: the request-definition core, in Dafny

typical-fetch builds reusable HTTP request functions with a fluent, immutable
builder. `buildCall()` starts an empty call record; `method`, `path`, `query`,
`headers`, `body`, `map` and `parseJson` each return a new builder over a
copied record; `build()` validates the record and returns a function
`(baseUrl, args)` that assembles one request, sends it, parses the response
text and threads it through the success mappers.

This project models that core:

- `Types.dfy` (src/types.ts): HTTP methods, JSON roots, body values, query and
  header sources, the `CallRecord`, the two-variant `CallReturn`, and the
  `TypicalWrappedError` and `TypicalHttpError` constructors.
- `Common.dfy` (src/common.ts): body classification, query and header
  merging, `Headers.set` on an ordered header list, `getFetchParams` (with
  small `URL`, `URLSearchParams` and `Headers` classes that it mutates), the
  left-to-right mapper fold and `applyErrorMappers`.
- `Builder.dfy` (src/index.ts): the builder as a value, `build()`, chains of
  builder operations and branching, and one invocation of a built call.
- `Wrappers.dfy`: `Option` (for `undefined`) and `Result` (for thrown errors).

A builder's record is only assigned in its constructor, so the builder is a
datatype and each operation is a function; those the library can refuse
(`method`, `path`, `body`, `build`) return a `Result` whose `Failure` is the
thrown error, and the others return the new builder directly. The source's
three loops are methods with loop invariants, proved against the functions
that specify them: the query-append loop of `getFetchParams` in
`Common.GetFetchParams`, the fetcher's mapper loop in `Common.RunMappers`,
and the `applyErrorMappers` loop in `Common.ApplyErrorMappers`. `Fold` and
`RunMappers` model the mapper loop of src/index.ts but live in `Common`,
because they also serve as the corrected `applyErrorMappers` of src/common.ts
(see Findings). Resolvers are Dafny functions of the argument bag `A`; values
flowing through parsers and mappers have one type `V`.

Behaviours of the code that a reader might not expect (the model follows the
code):

- Only `parseJson` exists, and calling it again replaces the parser; there is
  no text or response parser and no refusal of a second parser.
- A body is refused for `head`, `get` and `delete` (not only `get`/`head`).
- The classified content type is written with `headers.set`, so it replaces
  a configured `content-type` instead of giving way to it. (The model matches
  header names exactly, so it replaces only an entry spelled exactly
  `content-type`; see Left out.)
- A built call has no status check and no error handling: it always resolves
  with `success: true`, and the value sits in a field named `response`. With
  no parser the value is the raw response text, not `undefined`.
- The built function takes `(baseUrl, args)`; no base URL is fixed at
  definition time.
- `applyErrorMappers` gives every mapper the original error (see Findings).

## Model

| member | source | states |
|---|---|---|
| Builder.NewCallBuilder | src/index.ts:17-24 | over a given record the builder holds exactly it; without one, every list is empty and no method, path, body or parser is set |
| Builder.BuildCall | src/index.ts:129-131 | a fresh builder is over the empty record |
| Builder.CallBuilder.Args | src/index.ts:26-28 | `args()` has no runtime effect: the new builder holds the identical record |
| Builder.CallBuilder.Method | src/index.ts:30-33 | refused, with "Can't set method multiple times", exactly when a method is set; otherwise only the method changes |
| Builder.CallBuilder.Path | src/index.ts:35-43 | refused exactly when a path is set; otherwise only the path resolver changes, and a string becomes a resolver returning it for every argument bag |
| Builder.Resolvable.Resolver | src/index.ts:39-40 | a literal operand becomes a constant resolver; a function operand is stored as it is |
| Builder.CallBuilder.Query | src/index.ts:45-55 | appends exactly one query resolver at the end; earlier resolvers and every other field unchanged |
| Builder.CallBuilder.Headers | src/index.ts:57-69 | appends exactly one header resolver at the end; earlier resolvers and every other field unchanged |
| Builder.CallBuilder.Map | src/index.ts:71-76 | appends exactly the given mapper at the end; earlier mappers and every other field unchanged |
| Builder.CallBuilder.Body | src/index.ts:78-85 | refused exactly when a body is set; otherwise only the body resolver changes |
| Builder.CallBuilder.ParseJson | src/index.ts:87-89 | sets the parser unconditionally; every other field unchanged |
| Builder.ParseJsonLastWins | src/index.ts:87-89 | calling `parseJson` twice equals calling it once with the second parser |
| Builder.SetOnceFields | src/index.ts:30-43 | after a successful `method`, `path` or `body`, a second call of the same operation is refused |
| Builder.CallBuilder.Build | src/index.ts:91-98 | succeeds iff a path and a method are set and no body is set with `head`/`get`/`delete`; the failures come in that order with the source's messages; a success closes over the unchanged record |
| Builder.ApplyAppends | src/index.ts:30-89 | one successful operation appends its resolver or mapper (if any) at the end of its own list, leaves the other lists alone and keeps a method, path or body already set |
| Builder.ChainAppendsMappers | src/index.ts:71-76 | any successful chain of operations appends to the mapper list exactly the mappers of its `map` calls, in call order |
| Builder.ChainAppendsQueries | src/index.ts:45-55 | any successful chain appends to the query list exactly the resolvers of its `query` calls, in call order |
| Builder.ChainAppendsHeaders | src/index.ts:57-69 | any successful chain appends to the header list exactly the resolvers of its `headers` calls, in call order |
| Builder.ChainKeepsSetFields | src/index.ts:30-43 | along any successful chain a method, path or body already set is never changed |
| Builder.ForkedBuildersDoNotInterfere | src/index.ts:51-54 | two continuations of one builder both start with its lists, and past that prefix each holds exactly what its own operations appended |
| Builder.Respond | src/index.ts:105-122 | the parsed JSON (or the raw text when no parser is set) threaded through the mappers left to right; always `success: true`; fails only when `JSON.parse` rejects the text |
| Builder.RespondWithoutMappers | src/index.ts:112-116 | with no parser and no mappers the response is the raw text |
| Builder.Fetch | src/index.ts:100-123 | sends the method, the URL with base query then merged query pairs, the classified headers and body; the result is `Respond`, or the URL parser's rejection |
| Common.RunMappers | src/index.ts:118-120 | the mapper loop returns the left-to-right fold: each mapper receives the previous output and the arguments |
| Common.FoldConcat | src/index.ts:118-120 | running two mapper lists one after the other equals running their concatenation |
| Common.FoldFirstMapper | src/index.ts:118-120 | the first mapper receives the parsed value and the rest of the chain receives its output |
| Common.GetBodyInfo | src/common.ts:8-27 | no body gives no body and no content type; a string passes unchanged as `text/plain`; ArrayBuffer, stream, URLSearchParams and FormData pass unchanged with no content type; a JSON root becomes its encoding as `application/json` |
| Common.Flatten | src/common.ts:30-32 | an element is in the flattening iff it is in one of the inputs |
| Common.MergeQueryParams | src/common.ts:29-34 | a pair is in the merge iff some query source has it |
| Common.MergeQueryParamsConcat | src/common.ts:29-34 | merging is concatenation: one source gives exactly its entries, and merging `a + b` gives the merge of `a` followed by the merge of `b` |
| Common.MergeQueryParamsKeepsDuplicates | src/common.ts:29-34 | two sources are merged to the first's entries followed by the second's, duplicate names kept, lengths added |
| Common.MergeHeaders | src/common.ts:36-47 | a header pair is in the merge iff some header source (array, `Headers` or record) has it |
| Common.MergeHeadersConcat | src/common.ts:36-47 | header merging is the in-order concatenation of each source's pairs |
| Common.WithHeader | src/common.ts:70 | after `headers.set(name, value)` exactly one entry has that name, holding `value`, and the entries with other names are the same, in the same order |
| Common.RequestHeaders | src/common.ts:68-71 | without a classified content type the headers are exactly the merged headers; with one, a single `content-type` entry holds it and all other entries are kept |
| Common.GetFetchParams | src/common.ts:49-74 | refuses with "No path set" when there is no path, rejects an invalid URL, and otherwise yields a fresh URL whose query is its own pairs followed by the merged pairs, the request headers and the classified body |
| Common.SearchParams.Append | src/common.ts:60-62 | `append` adds exactly one pair at the end |
| Common.Headers.Set | src/common.ts:70 | `set` replaces the entries with `WithHeader` of the old ones |
| Common.ApplyErrorMappers | src/common.ts:76-86 | with no mappers the error is returned unchanged; otherwise the result is the last mapper applied to the original error |
| Common.ApplyErrorMappersDiscardsEarlierOutputs | src/common.ts:81-84 | two add-one mappers on error 0: the loop as written gives 1, the chain gives 2 |
| Types.ParseMethod | src/types.ts:37 | a string reads as a method iff it is one of the six names, and then it is that method's name |
| Types.MethodNameRoundTrip | src/types.ts:37 | each method's name reads back as that method, and distinct methods have distinct names |
| Types.CallReturn.BodyField | src/types.ts:10-12 | the body is present exactly on the success variant |
| Types.CallReturn.ErrorField | src/types.ts:10-12 | the error is present exactly on the failure variant |
| Types.CallReturnExclusive | src/types.ts:10-12 | no call result has both a body and an error, and each has one of them |
| Types.JsonRootIsNotScalar | src/types.ts:89-97 | a JSON body root is an array or an object, never null, a boolean, a number or a string |
| Types.NewWrappedError | src/types.ts:59-69 | keeps the wrapped value, response, body text and request as given; the message is the wrapped error's `name` for an `Error`, else "unknown" |
| Types.NewHttpError | src/types.ts:71-85 | copies status and status text, keeps the response and request; the message is "<status> <statusText>" |
| Types.HttpErrorMessageRecoversStatus | src/types.ts:79 | the text before the message's first space parses back to the status, and the rest is the status text |
| Types.ParseIntRoundTrip | src/types.ts:79 | an integer rendered in decimal reads back as the same integer |

## Findings

| source | as written | input that shows it | evidently intended | confidence | as-written member | corrected member |
|---|---|---|---|---|---|---|
| src/common.ts:83 | `newError = mapper(error, args)` gives every mapper the original error, so only the last mapper's output survives | two mappers that each add one, applied to the error 0: the result is 1 | `mapper(newError, args)`, chaining the mappers left to right (result 2), as the success-mapper loop at src/index.ts:118-120 does | high; not executed | Common.ApplyErrorMappers, Common.ApplyErrorMappersDiscardsEarlierOutputs | Common.RunMappers |

`applyErrorMappers` has no caller in the core, so the correction changes no other
member; `Common.RunMappers`, the chaining loop, is the one the built call uses
for its success mappers.

## Left out

- The HTTP exchange and `res.text()`: network I/O. The response text is an input of `Builder.Fetch`; a transport failure is not modelled.
- `JSON.parse` and `JSON.stringify`: library encoders, passed in as functions (`Host.parseJsonText`, `Host.stringify`); `JSON.parse` rejecting its input is `None`.
- `new URL(path, baseUrl)`: the URL parser is passed in as a function giving the URL without its query and the query's pairs, or `None` when it throws.
- `Headers` internals: node-fetch lower-cases names, sorts and combines entries; the model keeps an ordered list and matches names exactly. As a consequence, `Common.RequestHeaders` replaces only a configured entry named exactly `content-type`: a configured `Content-Type` survives next to the classified one, where node-fetch's case-insensitive `set` would replace it and send a single content type. `Common.WithHeader` appends the set entry at the end, where node-fetch keeps the position of an existing name.
- `Object.entries` order and value coercion: a plain record is given by its entries in enumeration order; values are strings.
- Arrays of header pairs whose elements are not two-element tuples (node-fetch throws on them).
- Floating-point JSON numbers: `Json` numbers are integers.
- Record fields no builder operation sets or reads (`baseUrl`, `errorMappers`, `parseResponse`, `parseText`, `requestInit`): not part of the `CallRecord` datatype. `mapError` is kept but only ever empty.
- The static type machinery (`FetchCall`, `MergedArgs`, the `Ret`/`Arg`/`Err` parameters): no runtime behaviour; all mapper values share one type `V`.
- `async`/`await`: the pipeline runs sequentially; a rejected promise is a `Failure`.
- Common.GetFetchParams: does not model the caller's resolvers throwing (`getPath(args)`, the query and header resolvers, `getBody(args)`), because resolvers are total functions here; nor node-fetch's `new Headers(headersList)` throwing a `TypeError` on an invalid header name or value, because header names and values are not validated. The model therefore succeeds whenever a path is set and the URL parses.
- Builder.Fetch: inherits both omissions of `Common.GetFetchParams`; a resolver that throws or an invalid header name or value, which reject the call in the source, do not make the model fail.
- Builder.Resolvable.Resolver: the source wraps a literal operand as a function returning that same object, so a headers object, query record, JSON, `URLSearchParams` or `FormData` body changed after definition is read in its changed state at each call, and a literal stream body is consumed by the first call; the model fixes a literal's value when the builder operation is applied, so this aliasing is not captured.
- Common.MergeHeaders: the source chooses the `Headers` branch by `instanceof` against node-fetch's own class; a `Headers` value from Node's global class or another copy of node-fetch fails that test, falls through to `Object.entries`, and contributes no headers. `HeadersObject` assumes the `instanceof` test succeeds, so that silent loss is not expressible.
- Common.GetBodyInfo: the source picks the pass-through branch by `instanceof` against its own imported `ArrayBuffer`, `Readable`, `URLSearchParams` and `FormData`; a look-alike object from another copy of those libraries fails that test and is JSON-encoded as `application/json`. The `BodyType` tags assume the `instanceof` test succeeds, so that case is not expressible.
- Parsers and mappers that throw: they are total functions here, so their exceptions are not modelled.
- src/json-typings.ts: a duplicate of the JSON type in src/types.ts, not part of this model.
