/**
 * The request-assembly utilities of src/common.ts: body classification,
 * query and header merging, the request parameters a call sends, and the
 * error-mapper loop.
 *
 * The URL parser (`new URL(path, base)`) and `JSON.stringify` are library
 * code outside this model; they are passed in as functions.
 */
module Common {
  import opened Wrappers
  import opened Types

  /** What the library can throw while defining or running a call. */
  datatype Thrown =
    | InvariantViolation(message: string)   // `invariant(...)` failing
    | PlainError(message: string)           // `throw new Error(...)`
    | InvalidUrl(input: string)             // `new URL(...)` rejecting its input
    | JsonSyntaxError(text: string)         // `JSON.parse` rejecting a response text

  const NoPathMessage := "No path set"
  const ContentTypeHeader := "content-type"
  const TextPlain := "text/plain"
  const ApplicationJson := "application/json"

  // ---------------------------------------------------------------------------
  // getBodyInfo
  // ---------------------------------------------------------------------------

  /** The body to send and the content type it calls for, either possibly absent. */
  datatype BodyInfo = BodyInfo(body: Option<BodyType>, contentType: Option<string>)

  /**
   * Classifies a body: no body gives nothing; a string is sent as it is as
   * `text/plain`; an ArrayBuffer, stream, URLSearchParams or FormData is sent
   * as it is with no content type; a JSON root is sent as its encoding as
   * `application/json`.
   */
  function GetBodyInfo(data: Option<BodyType>, stringify: JsonRoot -> string): (r: BodyInfo)
    ensures r.body.Some? <==> data.Some?
    ensures r.body.Some? ==> IsBodyInit(r.body.value)
    ensures data.Some? && IsBodyInit(data.value) ==> r.body == data
    ensures data.Some? && data.value.JsonBody? ==> r.body == Some(TextBody(stringify(data.value.root)))
    ensures r.contentType.Some? <==> data.Some? && (data.value.TextBody? || data.value.JsonBody?)
    ensures data.Some? && data.value.TextBody? ==> r.contentType == Some(TextPlain)
    ensures data.Some? && data.value.JsonBody? ==> r.contentType == Some(ApplicationJson)
  {
    match data
    case None => BodyInfo(None, None)
    case Some(TextBody(_)) => BodyInfo(data, Some(TextPlain))
    case Some(JsonBody(root)) => BodyInfo(Some(TextBody(stringify(root))), Some(ApplicationJson))
    case Some(_) => BodyInfo(data, None)
  }

  // ---------------------------------------------------------------------------
  // Flattening, shared by mergeQueryParams and mergeHeaders
  // ---------------------------------------------------------------------------

  /** The concatenation of a list of lists, in order (`flatMap` of the identity). */
  function Flatten<T(!new)>(xss: seq<seq<T>>): (r: seq<T>)
    ensures forall x :: x in r <==> exists i :: 0 <= i < |xss| && x in xss[i]
  {
    if xss == [] then [] else xss[0] + Flatten(xss[1..])
  }

  lemma {:induction false} FlattenConcat<T(!new)>(a: seq<seq<T>>, b: seq<seq<T>>)
    ensures Flatten(a + b) == Flatten(a) + Flatten(b)
  {
    if a == [] {
      assert a + b == b;
    } else {
      assert (a + b)[1..] == a[1..] + b;
      FlattenConcat(a[1..], b);
    }
  }

  lemma FlattenSingle<T(!new)>(xs: seq<T>)
    ensures Flatten([xs]) == xs
  {
    assert [xs][1..] == [];
  }

  // ---------------------------------------------------------------------------
  // mergeQueryParams
  // ---------------------------------------------------------------------------

  /** The entries `new URLSearchParams(q)` iterates, in order. */
  function QueryEntries(q: QueryParam): seq<Pair>
  {
    match q
    case QueryRecord(fields) => fields
    case QuerySearchParams(params) => params
  }

  /** `defs.map(QueryEntries)`. */
  function QueryEntryLists(defs: seq<QueryParam>): (r: seq<seq<Pair>>)
    ensures |r| == |defs| && forall i :: 0 <= i < |defs| ==> r[i] == QueryEntries(defs[i])
  {
    seq(|defs|, i requires 0 <= i < |defs| => QueryEntries(defs[i]))
  }

  /** Every query source's entries, one after the other; duplicate names are all kept. */
  function MergeQueryParams(defs: seq<QueryParam>): (r: seq<Pair>)
    ensures forall p :: p in r <==> exists i :: 0 <= i < |defs| && p in QueryEntries(defs[i])
  {
    Flatten(QueryEntryLists(defs))
  }

  /**
   * Merging is concatenation: a single source contributes exactly its
   * entries, and merging two lists of sources gives the first one's merge
   * followed by the second one's.
   */
  lemma MergeQueryParamsConcat(a: seq<QueryParam>, b: seq<QueryParam>, q: QueryParam)
    ensures MergeQueryParams([q]) == QueryEntries(q)
    ensures MergeQueryParams(a + b) == MergeQueryParams(a) + MergeQueryParams(b)
  {
    assert QueryEntryLists(a + b) == QueryEntryLists(a) + QueryEntryLists(b);
    FlattenConcat(QueryEntryLists(a), QueryEntryLists(b));
    assert QueryEntryLists([q]) == [QueryEntries(q)];
    FlattenSingle(QueryEntries(q));
  }

  /** Two sources naming the same key both survive, in order, and lengths add up. */
  lemma MergeQueryParamsKeepsDuplicates(q1: QueryParam, q2: QueryParam)
    ensures MergeQueryParams([q1, q2]) == QueryEntries(q1) + QueryEntries(q2)
    ensures |MergeQueryParams([q1, q2])| == |QueryEntries(q1)| + |QueryEntries(q2)|
  {
    MergeQueryParamsConcat([q1], [q2], q1);
    MergeQueryParamsConcat([], [q2], q2);
    assert [q1] + [q2] == [q1, q2];
  }

  // ---------------------------------------------------------------------------
  // mergeHeaders
  // ---------------------------------------------------------------------------

  /**
   * The pairs one header source contributes: an array its pairs as they
   * are, a `Headers` object its entries, a plain record its `Object.entries`.
   */
  function HeaderEntries(h: HeadersInit): seq<Pair>
  {
    match h
    case HeaderPairs(pairs) => pairs
    case HeadersObject(entries) => entries
    case HeaderRecord(fields) => fields
  }

  /** `defs.map(HeaderEntries)`. */
  function HeaderEntryLists(defs: seq<HeadersInit>): (r: seq<seq<Pair>>)
    ensures |r| == |defs| && forall i :: 0 <= i < |defs| ==> r[i] == HeaderEntries(defs[i])
  {
    seq(|defs|, i requires 0 <= i < |defs| => HeaderEntries(defs[i]))
  }

  /** Every header source's pairs, one after the other (the list `new Headers` is built from). */
  function MergeHeaders(defs: seq<HeadersInit>): (r: seq<Pair>)
    ensures forall p :: p in r <==> exists i :: 0 <= i < |defs| && p in HeaderEntries(defs[i])
  {
    Flatten(HeaderEntryLists(defs))
  }

  /** Merging headers is concatenation of the sources' pairs, in order. */
  lemma MergeHeadersConcat(a: seq<HeadersInit>, b: seq<HeadersInit>, h: HeadersInit)
    ensures MergeHeaders([h]) == HeaderEntries(h)
    ensures MergeHeaders(a + b) == MergeHeaders(a) + MergeHeaders(b)
  {
    assert HeaderEntryLists(a + b) == HeaderEntryLists(a) + HeaderEntryLists(b);
    FlattenConcat(HeaderEntryLists(a), HeaderEntryLists(b));
    assert HeaderEntryLists([h]) == [HeaderEntries(h)];
    FlattenSingle(HeaderEntries(h));
  }

  // ---------------------------------------------------------------------------
  // An ordered header list and `Headers.set`
  // ---------------------------------------------------------------------------

  /** The entries whose name is (`named`) or is not (`!named`) `name`, in order. */
  function Filter(hs: seq<Pair>, name: string, named: bool): seq<Pair>
  {
    if hs == [] then []
    else (if (hs[0].0 == name) == named then [hs[0]] else []) + Filter(hs[1..], name, named)
  }

  lemma {:induction false} FilterConcat(a: seq<Pair>, b: seq<Pair>, name: string, named: bool)
    ensures Filter(a + b, name, named) == Filter(a, name, named) + Filter(b, name, named)
  {
    if a == [] {
      assert a + b == b;
    } else {
      assert (a + b)[1..] == a[1..] + b;
      FilterConcat(a[1..], b, name, named);
    }
  }

  lemma FilterSingle(p: Pair, name: string, named: bool)
    ensures Filter([p], name, named) == if (p.0 == name) == named then [p] else []
  {
    assert [p][1..] == [];
  }

  lemma {:induction false} FilterFilter(hs: seq<Pair>, name: string, named: bool)
    ensures Filter(Filter(hs, name, named), name, named) == Filter(hs, name, named)
    ensures Filter(Filter(hs, name, !named), name, named) == []
  {
    if hs != [] {
      FilterFilter(hs[1..], name, named);
      var h := if (hs[0].0 == name) == named then [hs[0]] else [];
      var k := if (hs[0].0 == name) == !named then [hs[0]] else [];
      FilterConcat(h, Filter(hs[1..], name, named), name, named);
      FilterConcat(k, Filter(hs[1..], name, !named), name, named);
    }
  }

  /**
   * `headers.set(name, value)` on an ordered header list: afterwards exactly
   * one entry has that name and it holds `value`, and the entries with other
   * names are the same ones in the same order.
   */
  function WithHeader(hs: seq<Pair>, name: string, value: string): (r: seq<Pair>)
    ensures Filter(r, name, true) == [(name, value)]
    ensures Filter(r, name, false) == Filter(hs, name, false)
  {
    var rest := Filter(hs, name, false);
    FilterConcat(rest, [(name, value)], name, true);
    FilterConcat(rest, [(name, value)], name, false);
    FilterFilter(hs, name, false);
    FilterFilter(hs, name, true);
    FilterSingle((name, value), name, true);
    FilterSingle((name, value), name, false);
    rest + [(name, value)]
  }

  /**
   * The headers a call sends: the merged headers, with `content-type`
   * overwritten when the body classifier asked for one (a configured entry
   * named exactly `content-type` does not survive; names are compared
   * exactly, so other spellings survive next to it); exactly the merged
   * headers otherwise.
   */
  function RequestHeaders(merged: seq<Pair>, contentType: Option<string>): (r: seq<Pair>)
    ensures contentType.None? ==> r == merged
    ensures contentType.Some? ==> Filter(r, ContentTypeHeader, true) == [(ContentTypeHeader, contentType.value)]
    ensures contentType.Some? ==> Filter(r, ContentTypeHeader, false) == Filter(merged, ContentTypeHeader, false)
  {
    if contentType.Some? then WithHeader(merged, ContentTypeHeader, contentType.value) else merged
  }

  // ---------------------------------------------------------------------------
  // getFetchParams
  // ---------------------------------------------------------------------------

  /** `fs.map(e => e(args))`. */
  function ResolveAll<A, T>(fs: seq<A -> T>, args: A): (r: seq<T>)
    ensures |r| == |fs| && forall i :: 0 <= i < |fs| ==> r[i] == fs[i](args)
  {
    seq(|fs|, i requires 0 <= i < |fs| => fs[i](args))
  }

  /** `getBody ? getBody(args) : undefined`. */
  function ResolveBody<A>(getBody: Option<A -> BodyType>, args: A): Option<BodyType>
  {
    match getBody
    case None => None
    case Some(f) => Some(f(args))
  }

  /** What the URL parser makes of a path against a base: the URL without its query, and the query's pairs. */
  datatype ParsedUrl = ParsedUrl(location: string, query: seq<Pair>)

  /** A `URLSearchParams` object, as an ordered list of pairs. */
  class SearchParams {
    var pairs: seq<Pair>

    constructor (init: seq<Pair>)
      ensures pairs == init
    {
      pairs := init;
    }

    /** `searchParams.append(name, value)`: adds one pair at the end. */
    method Append(name: string, value: string)
      modifies this
      ensures pairs == old(pairs) + [(name, value)]
    {
      pairs := pairs + [(name, value)];
    }
  }

  /** A `URL` object: its location and its live `searchParams`. */
  class Url {
    const location: string
    const searchParams: SearchParams

    constructor (parsed: ParsedUrl)
      ensures location == parsed.location
      ensures fresh(searchParams) && searchParams.pairs == parsed.query
    {
      location := parsed.location;
      searchParams := new SearchParams(parsed.query);
    }
  }

  /** A `Headers` object, as an ordered list of entries. */
  class Headers {
    var entries: seq<Pair>

    constructor (init: seq<Pair>)
      ensures entries == init
    {
      entries := init;
    }

    /** `headers.set(name, value)`. */
    method Set(name: string, value: string)
      modifies this
      ensures entries == WithHeader(old(entries), name, value)
    {
      entries := WithHeader(entries, name, value);
    }
  }

  datatype FetchParams = FetchParams(url: Url, headers: Headers, body: Option<BodyType>)

  /**
   * `getFetchParams(record, baseUrl, args)`: resolves the path against the
   * base, appends every merged query pair to the URL after the pairs it
   * already has, merges the headers and classifies the body.
   */
  method GetFetchParams<A, V>(record: CallRecord<A, V>, baseUrl: string, args: A,
                              parseUrl: (string, string) -> Option<ParsedUrl>,
                              stringify: JsonRoot -> string)
    returns (r: Result<FetchParams, Thrown>)
    ensures record.getPath.None? ==> r == Failure(InvariantViolation(NoPathMessage))
    ensures record.getPath.Some? && parseUrl(record.getPath.value(args), baseUrl).None? ==>
      r == Failure(InvalidUrl(record.getPath.value(args)))
    ensures r.Success? ==>
      record.getPath.Some? && parseUrl(record.getPath.value(args), baseUrl).Some? &&
      var parsed := parseUrl(record.getPath.value(args), baseUrl).value;
      var info := GetBodyInfo(ResolveBody(record.getBody, args), stringify);
      fresh(r.value.url) && fresh(r.value.url.searchParams) && fresh(r.value.headers) &&
      r.value.url.location == parsed.location &&
      r.value.url.searchParams.pairs == parsed.query + MergeQueryParams(ResolveAll(record.getQuery, args)) &&
      r.value.headers.entries == RequestHeaders(MergeHeaders(ResolveAll(record.getHeaders, args)), info.contentType) &&
      r.value.body == info.body
    ensures record.getPath.Some? && parseUrl(record.getPath.value(args), baseUrl).Some? ==> r.Success?
  {
    if record.getPath.None? {
      return Failure(InvariantViolation(NoPathMessage));
    }
    var path := record.getPath.value(args);
    var parsed := parseUrl(path, baseUrl);
    if parsed.None? {
      return Failure(InvalidUrl(path));
    }
    var url := new Url(parsed.value);
    var pairs := MergeQueryParams(ResolveAll(record.getQuery, args));
    for i := 0 to |pairs|
      invariant url.searchParams.pairs == parsed.value.query + pairs[..i]
    {
      url.searchParams.Append(pairs[i].0, pairs[i].1);
    }
    var headers := new Headers(MergeHeaders(ResolveAll(record.getHeaders, args)));
    var info := GetBodyInfo(ResolveBody(record.getBody, args), stringify);
    if info.contentType.Some? {
      headers.Set(ContentTypeHeader, info.contentType.value);
    }
    r := Success(FetchParams(url, headers, info.body));
  }

  // ---------------------------------------------------------------------------
  // Mapper chains and applyErrorMappers
  // ---------------------------------------------------------------------------

  /**
   * Threads a value through a chain of mappers, left to right: each mapper
   * gets the previous mapper's output and the argument bag.
   */
  function Fold<V, A>(fs: seq<(V, A) -> V>, x: V, args: A): V
    decreases |fs|
  {
    if fs == [] then x else fs[|fs| - 1](Fold(fs[..|fs| - 1], x, args), args)
  }

  /** Running two chains one after the other is running their concatenation. */
  lemma {:induction false} FoldConcat<V, A>(fs: seq<(V, A) -> V>, gs: seq<(V, A) -> V>, x: V, args: A)
    ensures Fold(fs + gs, x, args) == Fold(gs, Fold(fs, x, args), args)
    decreases |gs|
  {
    if gs == [] {
      assert fs + gs == fs;
    } else {
      var n := |fs + gs|;
      assert (fs + gs)[..n - 1] == fs + gs[..|gs| - 1];
      FoldConcat(fs, gs[..|gs| - 1], x, args);
    }
  }

  /** The first mapper gets the original value; the rest of the chain gets its output. */
  lemma FoldFirstMapper<V, A>(fs: seq<(V, A) -> V>, x: V, args: A)
    requires fs != []
    ensures Fold(fs, x, args) == Fold(fs[1..], fs[0](x, args), args)
  {
    assert fs == [fs[0]] + fs[1..];
    FoldConcat([fs[0]], fs[1..], x, args);
    assert [fs[0]][..0] == [];
  }

  /**
   * `applyErrorMappers(error, mappers, args)` as written: every mapper is
   * applied to the ORIGINAL error, so the result is the error itself when
   * there are no mappers and the last mapper's output on the original error
   * otherwise; earlier mappers' outputs are discarded.
   */
  method ApplyErrorMappers<V, A>(error: V, mappers: seq<(V, A) -> V>, args: A) returns (newError: V)
    ensures mappers == [] ==> newError == error
    ensures mappers != [] ==> newError == mappers[|mappers| - 1](error, args)
  {
    newError := error;
    for i := 0 to |mappers|
      invariant i == 0 ==> newError == error
      invariant i > 0 ==> newError == mappers[i - 1](error, args)
    {
      newError := mappers[i](error, args);
    }
  }

  /**
   * The success-mapper loop of a built call (`for (const mapper of mappers)
   * data = mapper(data, args)`): each mapper gets the previous mapper's
   * output, so the result is the left-to-right chain. It is also the loop
   * `applyErrorMappers` evidently means to run.
   */
  method RunMappers<V, A>(mappers: seq<(V, A) -> V>, data: V, args: A) returns (out: V)
    ensures out == Fold(mappers, data, args)
  {
    out := data;
    for i := 0 to |mappers|
      invariant out == Fold(mappers[..i], data, args)
    {
      assert mappers[..i + 1][..i] == mappers[..i];
      out := mappers[i](out, args);
    }
    assert mappers[..|mappers|] == mappers;
  }

  /**
   * Two error mappers that each add one: the loop as written returns 1 for
   * the error 0 (only the last mapper counts), the chain returns 2.
   */
  lemma ApplyErrorMappersDiscardsEarlierOutputs()
    ensures var inc := (e: int, u: bool) => e + 1;
      var ms := [inc, inc];
      ms[|ms| - 1](0, true) == 1 && Fold(ms, 0, true) == 2
  {
    var inc := (e: int, u: bool) => e + 1;
    var ms := [inc, inc];
    assert ms[..1][..0] == [];
    assert Fold(ms[..1], 0, true) == 1;
  }
}
