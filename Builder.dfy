/**
 * The call builder of src/index.ts. A builder only wraps a call record; every
 * configuration operation returns a new builder over a new record and never
 * changes the receiver, so builders are values here. `Build` validates the
 * record, and `Fetch` is the function it produces: it sends one request and
 * threads the response through the parser and the mappers.
 *
 * Argument bags are values (`A(!new)`): the library only passes them on.
 */
module Builder {
  import opened Wrappers
  import opened Types
  import Common

  const MethodTwiceMessage := "Can't set method multiple times"
  const PathTwiceMessage := "Can't set path multiple times"
  const BodyTwiceMessage := "Can't set body multiple times"
  const NoMethodMessage := "No method set"

  /** `Can't include body in "<method>" request`. */
  function BodyNotAllowedMessage(m: HttpMethod): string
  {
    "Can't include body in \"" + MethodName(m) + "\" request"
  }

  /** The methods a call with a body is refused for. */
  predicate ForbidsBody(m: HttpMethod)
  {
    m == Head || m == Get || m == Delete
  }

  /**
   * An operand given either as a value or as a function of the argument bag
   * (`typeof x === 'function' ? x : () => x`).
   */
  datatype Resolvable<!A(!new), T> = Literal(value: T) | Computed(f: A -> T)
  {
    /** The resolver stored in the record: a value becomes a constant function. */
    function Resolver(): (r: A -> T)
      ensures Literal? ==> forall args :: r(args) == value
      ensures Computed? ==> r == f
    {
      match this
      case Literal(v) => (args: A) => v
      case Computed(f) => f
    }
  }

  /** The record of a fresh builder: empty lists and nothing else set. */
  function EmptyRecord<A, V>(): CallRecord<A, V>
  {
    CallRecord(None, None, [], [], None, None, [], [])
  }

  datatype CallBuilder<!A(!new), !V> = CallBuilder(record: CallRecord<A, V>)
  {
    /** `args<T>()`: changes only the static argument type; the record is the same. */
    function Args(): (b: CallBuilder<A, V>)
      ensures b.record == record
    {
      CallBuilder(record)
    }

    /** `method(m)`: refused when a method is already set; otherwise sets only the method. */
    function Method(m: HttpMethod): (r: Result<CallBuilder<A, V>, Common.Thrown>)
      ensures r.Failure? <==> record.httpMethod.Some?
      ensures r.Failure? ==> r.error == Common.InvariantViolation(MethodTwiceMessage)
      ensures r.Success? ==> r.value.record == record.(httpMethod := Some(m))
    {
      if record.httpMethod.Some? then Failure(Common.InvariantViolation(MethodTwiceMessage))
      else Success(CallBuilder(record.(httpMethod := Some(m))))
    }

    /**
     * `path(p)`: refused when a path is already set; otherwise sets only the
     * path resolver, and a string becomes a resolver that returns it for
     * every argument bag.
     */
    function Path(p: Resolvable<A, string>): (r: Result<CallBuilder<A, V>, Common.Thrown>)
      ensures r.Failure? <==> record.getPath.Some?
      ensures r.Failure? ==> r.error == Common.InvariantViolation(PathTwiceMessage)
      ensures r.Success? ==> r.value.record == record.(getPath := Some(p.Resolver()))
      ensures r.Success? && p.Literal? ==>
        forall args :: r.value.record.getPath.value(args) == p.value
    {
      if record.getPath.Some? then Failure(Common.InvariantViolation(PathTwiceMessage))
      else Success(CallBuilder(record.(getPath := Some(p.Resolver()))))
    }

    /** `query(q)`: appends one query resolver; nothing else changes. */
    function Query(q: Resolvable<A, QueryParam>): (b: CallBuilder<A, V>)
      ensures |b.record.getQuery| == |record.getQuery| + 1
      ensures b.record.getQuery[..|record.getQuery|] == record.getQuery
      ensures b.record.getQuery[|record.getQuery|] == q.Resolver()
      ensures b.record == record.(getQuery := b.record.getQuery)
    {
      CallBuilder(record.(getQuery := record.getQuery + [q.Resolver()]))
    }

    /** `headers(h)`: appends one header resolver; nothing else changes. */
    function Headers(h: Resolvable<A, HeadersInit>): (b: CallBuilder<A, V>)
      ensures |b.record.getHeaders| == |record.getHeaders| + 1
      ensures b.record.getHeaders[..|record.getHeaders|] == record.getHeaders
      ensures b.record.getHeaders[|record.getHeaders|] == h.Resolver()
      ensures b.record == record.(getHeaders := b.record.getHeaders)
    {
      CallBuilder(record.(getHeaders := record.getHeaders + [h.Resolver()]))
    }

    /** `map(f)`: appends one success mapper; nothing else changes. */
    function Map(f: (V, A) -> V): (b: CallBuilder<A, V>)
      ensures |b.record.mappers| == |record.mappers| + 1
      ensures b.record.mappers[..|record.mappers|] == record.mappers
      ensures b.record.mappers[|record.mappers|] == f
      ensures b.record == record.(mappers := b.record.mappers)
    {
      CallBuilder(record.(mappers := record.mappers + [f]))
    }

    /** `body(d)`: refused when a body is already set; otherwise sets only the body resolver. */
    function Body(d: Resolvable<A, BodyType>): (r: Result<CallBuilder<A, V>, Common.Thrown>)
      ensures r.Failure? <==> record.getBody.Some?
      ensures r.Failure? ==> r.error == Common.InvariantViolation(BodyTwiceMessage)
      ensures r.Success? ==> r.value.record == record.(getBody := Some(d.Resolver()))
    {
      if record.getBody.Some? then Failure(Common.InvariantViolation(BodyTwiceMessage))
      else Success(CallBuilder(record.(getBody := Some(d.Resolver()))))
    }

    /** `parseJson(p)`: sets the parser whether or not one is set already. */
    function ParseJson(p: V -> V): (b: CallBuilder<A, V>)
      ensures b.record.parseJson == Some(p)
      ensures b.record == record.(parseJson := Some(p))
    {
      CallBuilder(record.(parseJson := Some(p)))
    }

    /**
     * `build()`: refused, in this order, when no path is set, when no method
     * is set, and when a body is set for `head`, `get` or `delete`;
     * otherwise a call over this very record.
     */
    function Build(): (r: Result<BuiltCall<A, V>, Common.Thrown>)
      ensures r.Success? <==>
        record.getPath.Some? && record.httpMethod.Some? &&
        !(record.getBody.Some? && ForbidsBody(record.httpMethod.value))
      ensures record.getPath.None? ==> r == Failure(Common.InvariantViolation(Common.NoPathMessage))
      ensures record.getPath.Some? && record.httpMethod.None? ==>
        r == Failure(Common.InvariantViolation(NoMethodMessage))
      ensures record.getPath.Some? && record.httpMethod.Some? && record.getBody.Some? ==>
        ForbidsBody(record.httpMethod.value) ==>
        r == Failure(Common.PlainError(BodyNotAllowedMessage(record.httpMethod.value)))
      ensures r.Success? ==> r.value.record == record && r.value.Valid()
    {
      if record.getPath.None? then Failure(Common.InvariantViolation(Common.NoPathMessage))
      else if record.httpMethod.None? then Failure(Common.InvariantViolation(NoMethodMessage))
      else if record.getBody.Some? && ForbidsBody(record.httpMethod.value) then
        Failure(Common.PlainError(BodyNotAllowedMessage(record.httpMethod.value)))
      else Success(BuiltCall(record))
    }
  }

  /** `new CallBuilder(record?)`: over the given record, or over an empty one. */
  function NewCallBuilder<A(!new), V>(record: Option<CallRecord<A, V>>): (b: CallBuilder<A, V>)
    ensures record.Some? ==> b.record == record.value
    ensures record.None? ==>
      b.record.getHeaders == [] && b.record.getQuery == [] &&
      b.record.mappers == [] && b.record.mapError == [] &&
      b.record.httpMethod.None? && b.record.getPath.None? &&
      b.record.getBody.None? && b.record.parseJson.None?
  {
    match record
    case Some(r) => CallBuilder(r)
    case None => CallBuilder(EmptyRecord())
  }

  /** `buildCall()`: a fresh builder. */
  function BuildCall<A(!new), V>(): (b: CallBuilder<A, V>)
    ensures b.record == EmptyRecord()
  {
    NewCallBuilder(None)
  }

  /** Setting the parser twice keeps only the second parser. */
  lemma ParseJsonLastWins<A(!new), V>(b: CallBuilder<A, V>, p: V -> V, q: V -> V)
    ensures b.ParseJson(p).ParseJson(q) == b.ParseJson(q)
    ensures b.ParseJson(p).ParseJson(q).record.parseJson == Some(q)
  {
  }

  /** Once set, the method, the path and the body each refuse a second setting. */
  lemma SetOnceFields<A(!new), V>(b: CallBuilder<A, V>, m: HttpMethod, n: HttpMethod,
                                  p: Resolvable<A, string>, q: Resolvable<A, string>,
                                  d: Resolvable<A, BodyType>, e: Resolvable<A, BodyType>)
    ensures b.Method(m).Success? ==> b.Method(m).value.Method(n).Failure?
    ensures b.Path(p).Success? ==> b.Path(p).value.Path(q).Failure?
    ensures b.Body(d).Success? ==> b.Body(d).value.Body(e).Failure?
  {
  }

  // ---------------------------------------------------------------------------
  // Chains of builder operations, and branching
  // ---------------------------------------------------------------------------

  /** One builder operation with its operand. */
  datatype Step<!A(!new), !V> =
    | ArgsStep
    | MethodStep(m: HttpMethod)
    | PathStep(path: Resolvable<A, string>)
    | QueryStep(query: Resolvable<A, QueryParam>)
    | HeadersStep(headers: Resolvable<A, HeadersInit>)
    | MapStep(mapper: (V, A) -> V)
    | BodyStep(body: Resolvable<A, BodyType>)
    | ParseJsonStep(parser: V -> V)

  function Apply<A(!new), V>(b: CallBuilder<A, V>, s: Step<A, V>): Result<CallBuilder<A, V>, Common.Thrown>
  {
    match s
    case ArgsStep => Success(b.Args())
    case MethodStep(m) => b.Method(m)
    case PathStep(p) => b.Path(p)
    case QueryStep(q) => Success(b.Query(q))
    case HeadersStep(h) => Success(b.Headers(h))
    case MapStep(f) => Success(b.Map(f))
    case BodyStep(d) => b.Body(d)
    case ParseJsonStep(p) => Success(b.ParseJson(p))
  }

  /** Applies the operations left to right; the first refusal is the result. */
  function Chain<A(!new), V>(b: CallBuilder<A, V>, steps: seq<Step<A, V>>): Result<CallBuilder<A, V>, Common.Thrown>
    decreases |steps|
  {
    if steps == [] then Success(b)
    else match Apply(b, steps[0])
      case Failure(e) => Failure(e)
      case Success(b') => Chain(b', steps[1..])
  }

  /** The mappers one operation appends. */
  function StepMappers<A(!new), V>(s: Step<A, V>): seq<(V, A) -> V>
  {
    if s.MapStep? then [s.mapper] else []
  }

  /** The query resolvers one operation appends. */
  function StepQueries<A(!new), V>(s: Step<A, V>): seq<A -> QueryParam>
  {
    if s.QueryStep? then [s.query.Resolver()] else []
  }

  /** The header resolvers one operation appends. */
  function StepHeaders<A(!new), V>(s: Step<A, V>): seq<A -> HeadersInit>
  {
    if s.HeadersStep? then [s.headers.Resolver()] else []
  }

  /** The mappers a list of operations appends, in order. */
  function AddedMappers<A(!new), V>(steps: seq<Step<A, V>>): seq<(V, A) -> V>
  {
    if steps == [] then [] else StepMappers(steps[0]) + AddedMappers(steps[1..])
  }

  /** The query resolvers a list of operations appends, in order. */
  function AddedQueries<A(!new), V>(steps: seq<Step<A, V>>): seq<A -> QueryParam>
  {
    if steps == [] then [] else StepQueries(steps[0]) + AddedQueries(steps[1..])
  }

  /** The header resolvers a list of operations appends, in order. */
  function AddedHeaders<A(!new), V>(steps: seq<Step<A, V>>): seq<A -> HeadersInit>
  {
    if steps == [] then [] else StepHeaders(steps[0]) + AddedHeaders(steps[1..])
  }

  /** A single successful operation appends at most one element to one list, and keeps set fields. */
  lemma ApplyAppends<A(!new), V>(b: CallBuilder<A, V>, s: Step<A, V>)
    requires Apply(b, s).Success?
    ensures var c := Apply(b, s).value.record;
      c.mappers == b.record.mappers + StepMappers(s) &&
      c.getQuery == b.record.getQuery + StepQueries(s) &&
      c.getHeaders == b.record.getHeaders + StepHeaders(s)
    ensures var c := Apply(b, s).value.record;
      (b.record.httpMethod.Some? ==> c.httpMethod == b.record.httpMethod) &&
      (b.record.getPath.Some? ==> c.getPath == b.record.getPath) &&
      (b.record.getBody.Some? ==> c.getBody == b.record.getBody)
  {
    match s
    case MapStep(f) =>
    case QueryStep(q) =>
    case HeadersStep(h) =>
    case _ =>
      assert StepMappers(s) == [] && StepQueries(s) == [] && StepHeaders(s) == [];
  }

  /** A chain whose first operation succeeds continues from that operation's builder. */
  lemma ChainUnfold<A(!new), V>(b: CallBuilder<A, V>, steps: seq<Step<A, V>>)
    requires steps != [] && Apply(b, steps[0]).Success?
    ensures Chain(b, steps) == Chain(Apply(b, steps[0]).value, steps[1..])
  {
  }

  /** A successful chain appends to the mappers exactly the mappers of its `map` operations, in order. */
  lemma {:induction false} ChainAppendsMappers<A(!new), V>(b: CallBuilder<A, V>, steps: seq<Step<A, V>>)
    requires Chain(b, steps).Success?
    ensures Chain(b, steps).value.record.mappers == b.record.mappers + AddedMappers(steps)
    decreases |steps|
  {
    if steps != [] {
      var b' := Apply(b, steps[0]).value;
      ApplyAppends(b, steps[0]);
      ChainUnfold(b, steps);
      ChainAppendsMappers(b', steps[1..]);
      assert b.record.mappers + AddedMappers(steps)
          == (b.record.mappers + StepMappers(steps[0])) + AddedMappers(steps[1..]);
    }
  }

  /** A successful chain appends to the query resolvers exactly those of its `query` operations, in order. */
  lemma {:induction false} ChainAppendsQueries<A(!new), V>(b: CallBuilder<A, V>, steps: seq<Step<A, V>>)
    requires Chain(b, steps).Success?
    ensures Chain(b, steps).value.record.getQuery == b.record.getQuery + AddedQueries(steps)
    decreases |steps|
  {
    if steps != [] {
      var b' := Apply(b, steps[0]).value;
      ApplyAppends(b, steps[0]);
      ChainUnfold(b, steps);
      ChainAppendsQueries(b', steps[1..]);
      assert b.record.getQuery + AddedQueries(steps)
          == (b.record.getQuery + StepQueries(steps[0])) + AddedQueries(steps[1..]);
    }
  }

  /** A successful chain appends to the header resolvers exactly those of its `headers` operations, in order. */
  lemma {:induction false} ChainAppendsHeaders<A(!new), V>(b: CallBuilder<A, V>, steps: seq<Step<A, V>>)
    requires Chain(b, steps).Success?
    ensures Chain(b, steps).value.record.getHeaders == b.record.getHeaders + AddedHeaders(steps)
    decreases |steps|
  {
    if steps != [] {
      var b' := Apply(b, steps[0]).value;
      ApplyAppends(b, steps[0]);
      ChainUnfold(b, steps);
      ChainAppendsHeaders(b', steps[1..]);
      assert b.record.getHeaders + AddedHeaders(steps)
          == (b.record.getHeaders + StepHeaders(steps[0])) + AddedHeaders(steps[1..]);
    }
  }

  /** Along a successful chain, a method, path or body that was set stays as it was. */
  lemma {:induction false} ChainKeepsSetFields<A(!new), V>(b: CallBuilder<A, V>, steps: seq<Step<A, V>>)
    requires Chain(b, steps).Success?
    ensures var c := Chain(b, steps).value.record;
      (b.record.httpMethod.Some? ==> c.httpMethod == b.record.httpMethod) &&
      (b.record.getPath.Some? ==> c.getPath == b.record.getPath) &&
      (b.record.getBody.Some? ==> c.getBody == b.record.getBody)
    decreases |steps|
  {
    if steps != [] {
      var b' := Apply(b, steps[0]).value;
      ApplyAppends(b, steps[0]);
      ChainUnfold(b, steps);
      ChainKeepsSetFields(b', steps[1..]);
    }
  }

  /**
   * Two continuations of one builder both start with its lists, and past
   * that shared prefix each holds exactly what its own operations appended:
   * nothing added to one branch shows up in the other.
   */
  lemma ForkedBuildersDoNotInterfere<A(!new), V>(b: CallBuilder<A, V>, s1: seq<Step<A, V>>, s2: seq<Step<A, V>>)
    requires Chain(b, s1).Success? && Chain(b, s2).Success?
    ensures var c1, c2 := Chain(b, s1).value.record, Chain(b, s2).value.record;
      var n := |b.record.mappers|;
      n <= |c1.mappers| && n <= |c2.mappers| &&
      c1.mappers[..n] == b.record.mappers && c2.mappers[..n] == b.record.mappers &&
      c1.mappers[n..] == AddedMappers(s1) && c2.mappers[n..] == AddedMappers(s2)
    ensures var c1, c2 := Chain(b, s1).value.record, Chain(b, s2).value.record;
      var n := |b.record.getQuery|;
      n <= |c1.getQuery| && n <= |c2.getQuery| &&
      c1.getQuery[..n] == b.record.getQuery && c2.getQuery[..n] == b.record.getQuery &&
      c1.getQuery[n..] == AddedQueries(s1) && c2.getQuery[n..] == AddedQueries(s2)
    ensures var c1, c2 := Chain(b, s1).value.record, Chain(b, s2).value.record;
      var n := |b.record.getHeaders|;
      n <= |c1.getHeaders| && n <= |c2.getHeaders| &&
      c1.getHeaders[..n] == b.record.getHeaders && c2.getHeaders[..n] == b.record.getHeaders &&
      c1.getHeaders[n..] == AddedHeaders(s1) && c2.getHeaders[n..] == AddedHeaders(s2)
  {
    ChainAppendsMappers(b, s1);
    ChainAppendsMappers(b, s2);
    ChainAppendsQueries(b, s1);
    ChainAppendsQueries(b, s2);
    ChainAppendsHeaders(b, s1);
    ChainAppendsHeaders(b, s2);
  }

  // ---------------------------------------------------------------------------
  // The built call
  // ---------------------------------------------------------------------------

  /** The function `build()` returns, as the record it closes over. */
  datatype BuiltCall<!A(!new), !V> = BuiltCall(record: CallRecord<A, V>)
  {
    /** What `build()` checked. */
    predicate Valid()
    {
      record.getPath.Some? && record.httpMethod.Some? &&
      !(record.getBody.Some? && ForbidsBody(record.httpMethod.value))
    }
  }

  /**
   * The library code a call relies on and this model does not contain: the
   * URL parser, `JSON.stringify`, `JSON.parse` (`None` when it throws) and
   * the response text as a JavaScript value.
   */
  datatype Host<V> = Host(
    parseUrl: (string, string) -> Option<Common.ParsedUrl>,
    stringify: JsonRoot -> string,
    parseJsonText: string -> Option<V>,
    textValue: string -> V)

  /** What a built call resolves to: `{success: true, response, error: undefined}`. */
  datatype FetcherReturn<V> = FetcherReturn(success: bool, response: V)

  /** The request handed to the transport. */
  datatype Request = Request(url: Common.Url, httpMethod: HttpMethod, headers: Common.Headers, body: Option<BodyType>)

  /**
   * What a call does with the response text: the parsed value (or the raw
   * text when no parser is set) threaded through the mappers. It always
   * reports success; the only failure is `JSON.parse` rejecting the text,
   * which rejects the call itself.
   */
  function Respond<A(!new), V>(call: BuiltCall<A, V>, host: Host<V>, args: A, text: string)
    : (r: Result<FetcherReturn<V>, Common.Thrown>)
    ensures r.Success? ==> r.value.success
    ensures r.Failure? <==> call.record.parseJson.Some? && host.parseJsonText(text).None?
    ensures r.Failure? ==> r.error == Common.JsonSyntaxError(text)
    ensures r.Success? && call.record.parseJson.None? ==>
      r.value.response == Common.Fold(call.record.mappers, host.textValue(text), args)
    ensures r.Success? && call.record.parseJson.Some? ==>
      r.value.response ==
        Common.Fold(call.record.mappers, call.record.parseJson.value(host.parseJsonText(text).value), args)
  {
    var parsed :=
      match call.record.parseJson
      case None => Success(host.textValue(text))
      case Some(parser) =>
        match host.parseJsonText(text)
        case None => Failure(Common.JsonSyntaxError(text))
        case Some(json) => Success(parser(json));
    match parsed
    case Failure(e) => Failure(e)
    case Success(data) => Success(FetcherReturn(true, Common.Fold(call.record.mappers, data, args)))
  }

  /** With no mappers the response is the parsed value itself (or the raw text). */
  lemma RespondWithoutMappers<A(!new), V>(call: BuiltCall<A, V>, host: Host<V>, args: A, text: string)
    requires call.record.mappers == [] && call.record.parseJson.None?
    ensures Respond(call, host, args, text) == Success(FetcherReturn(true, host.textValue(text)))
  {
  }

  /**
   * One invocation `fun(baseUrl, args)` of a built call: assembles and sends
   * the request, then parses the response text and runs the mappers.
   * `responseText` is what the transport answers; the exchange itself is
   * outside the model.
   */
  method Fetch<A(!new), V>(call: BuiltCall<A, V>, baseUrl: string, args: A, host: Host<V>, responseText: string)
    returns (sent: Option<Request>, r: Result<FetcherReturn<V>, Common.Thrown>)
    requires call.Valid()
    ensures var path := call.record.getPath.value(args);
      (sent.Some? <==> host.parseUrl(path, baseUrl).Some?) &&
      (sent.None? ==> r == Failure(Common.InvalidUrl(path)))
    ensures sent.Some? ==> r == Respond(call, host, args, responseText)
    ensures sent.Some? ==>
      var parsed := host.parseUrl(call.record.getPath.value(args), baseUrl).value;
      var info := Common.GetBodyInfo(Common.ResolveBody(call.record.getBody, args), host.stringify);
      var req := sent.value;
      fresh(req.url) && fresh(req.url.searchParams) && fresh(req.headers) &&
      req.httpMethod == call.record.httpMethod.value &&
      req.url.location == parsed.location &&
      req.url.searchParams.pairs ==
        parsed.query + Common.MergeQueryParams(Common.ResolveAll(call.record.getQuery, args)) &&
      req.headers.entries ==
        Common.RequestHeaders(Common.MergeHeaders(Common.ResolveAll(call.record.getHeaders, args)), info.contentType) &&
      req.body == info.body
  {
    var params := Common.GetFetchParams(call.record, baseUrl, args, host.parseUrl, host.stringify);
    if params.Failure? {
      return None, Failure(params.error);
    }
    sent := Some(Request(params.value.url, call.record.httpMethod.value, params.value.headers, params.value.body));
    var data: V;
    if call.record.parseJson.Some? {
      var json := host.parseJsonText(responseText);
      if json.None? {
        return sent, Failure(Common.JsonSyntaxError(responseText));
      }
      data := call.record.parseJson.value(json.value);
    } else {
      data := host.textValue(responseText);
    }
    data := Common.RunMappers(call.record.mappers, data, args);
    r := Success(FetcherReturn(true, data));
  }
}
