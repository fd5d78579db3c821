/**
 * The data model of src/types.ts: HTTP methods, request bodies, query and
 * header sources, the call record a builder accumulates, the two-variant
 * call result and the two error types the library defines.
 *
 * Two type parameters recur: `A` is the argument bag a built call is invoked
 * with, and `V` stands for "any JavaScript value" flowing through parsers and
 * mappers.
 */
module Types {
  import opened Wrappers

  /** A name/value pair: one query parameter or one header entry. */
  type Pair = (string, string)

  // ---------------------------------------------------------------------------
  // HTTP methods
  // ---------------------------------------------------------------------------

  datatype HttpMethod = Delete | Get | Head | Patch | Post | Put

  /** The lower-case string literal the source uses for each method. */
  function MethodName(m: HttpMethod): string
  {
    match m
    case Delete => "delete"
    case Get => "get"
    case Head => "head"
    case Patch => "patch"
    case Post => "post"
    case Put => "put"
  }

  /** The six strings the `HttpMethod` union admits, in declaration order. */
  const MethodNames: seq<string> := ["delete", "get", "head", "patch", "post", "put"]

  /** Reads a string as an `HttpMethod`; `None` for any string outside the union. */
  function ParseMethod(s: string): (r: Option<HttpMethod>)
    ensures r.Some? ==> MethodName(r.value) == s
    ensures r.Some? <==> s in MethodNames
  {
    if s == "delete" then Some(Delete)
    else if s == "get" then Some(Get)
    else if s == "head" then Some(Head)
    else if s == "patch" then Some(Patch)
    else if s == "post" then Some(Post)
    else if s == "put" then Some(Put)
    else None
  }

  /** Every method has its own name, and reading the name back gives the method. */
  lemma MethodNameRoundTrip(m: HttpMethod, n: HttpMethod)
    ensures ParseMethod(MethodName(m)) == Some(m)
    ensures MethodName(m) == MethodName(n) ==> m == n
  {
  }

  // ---------------------------------------------------------------------------
  // JSON values and request bodies
  // ---------------------------------------------------------------------------

  /** A JSON value; numbers are kept integral (floating point is not modelled). */
  datatype Json =
    | JNull
    | JBool(b: bool)
    | JNumber(n: int)
    | JString(s: string)
    | JArray(items: seq<Json>)
    | JObject(members: seq<(string, Json)>)

  predicate IsJsonRoot(j: Json)
  {
    j.JArray? || j.JObject?
  }

  /** A JSON body root: an array or an object, never a bare scalar. */
  type JsonRoot = j: Json | IsJsonRoot(j) witness JArray([])

  /** A JSON root is neither null, a boolean, a number nor a string. */
  lemma JsonRootIsNotScalar(root: JsonRoot)
    ensures !root.JNull? && !root.JBool? && !root.JNumber? && !root.JString?
  {
  }

  /**
   * `BodyType`: a JSON root, or one of the values the transport accepts as
   * they are (a string, an ArrayBuffer, a Node.js Readable stream, a
   * URLSearchParams or a FormData). Streams and form data are opaque objects,
   * identified by a handle.
   */
  datatype BodyType =
    | TextBody(text: string)
    | ArrayBufferBody(bytes: seq<bv8>)
    | ReadableBody(stream: nat)
    | SearchParamsBody(params: seq<Pair>)
    | FormDataBody(form: nat)
    | JsonBody(root: JsonRoot)

  /** The kinds of body the transport takes unchanged (`BodyInit`). */
  predicate IsBodyInit(b: BodyType)
  {
    !b.JsonBody?
  }

  // ---------------------------------------------------------------------------
  // Query and header sources
  // ---------------------------------------------------------------------------

  /**
   * `QueryParam`: a plain string record (given by its `Object.entries`, in
   * the order JavaScript enumerates them) or a URLSearchParams (given by its
   * entries, duplicates included).
   */
  datatype QueryParam =
    | QueryRecord(fields: seq<Pair>)
    | QuerySearchParams(params: seq<Pair>)

  /**
   * `HeadersInit`: an array of name/value pairs, a `Headers` object (given by
   * its entries) or a plain record (given by its `Object.entries`).
   */
  datatype HeadersInit =
    | HeaderPairs(pairs: seq<Pair>)
    | HeadersObject(entries: seq<Pair>)
    | HeaderRecord(fields: seq<Pair>)

  // ---------------------------------------------------------------------------
  // The call record
  // ---------------------------------------------------------------------------

  /**
   * `CallRecord`, as far as the builder and the built call use it (the field
   * `method` is named `httpMethod`, `method` being a Dafny keyword). Every
   * resolver is a function of the argument bag; `mappers` receive the
   * previous value and the argument bag.
   */
  datatype CallRecord<!A, !V> = CallRecord(
    httpMethod: Option<HttpMethod>,
    getPath: Option<A -> string>,
    getQuery: seq<A -> QueryParam>,
    getHeaders: seq<A -> HeadersInit>,
    getBody: Option<A -> BodyType>,
    parseJson: Option<V -> V>,
    mappers: seq<(V, A) -> V>,
    mapError: seq<A -> V>)

  // ---------------------------------------------------------------------------
  // Call results
  // ---------------------------------------------------------------------------

  /**
   * `CallReturn`: `{success: true, body, error: undefined}` or
   * `{success: false, body: undefined, error}`.
   */
  datatype CallReturn<R, E> = Succeeded(body: R) | Failed(error: E)
  {
    /** The `success` discriminant. */
    predicate Success()
    {
      Succeeded?
    }

    /** The `body` field: present exactly on the success variant. */
    function BodyField(): (r: Option<R>)
      ensures r.Some? <==> Success()
      ensures Succeeded? ==> r == Some(body)
    {
      if Succeeded? then Some(body) else None
    }

    /** The `error` field: present exactly on the failure variant. */
    function ErrorField(): (r: Option<E>)
      ensures r.Some? <==> !Success()
      ensures Failed? ==> r == Some(error)
    {
      if Failed? then Some(error) else None
    }
  }

  /** No call result carries both a body and an error, and each carries one of them. */
  lemma CallReturnExclusive<R, E>(r: CallReturn<R, E>)
    ensures r.BodyField().Some? != r.ErrorField().Some?
  {
  }

  // ---------------------------------------------------------------------------
  // Responses, request options and the error types
  // ---------------------------------------------------------------------------

  /** The parts of a transport response the errors read; `handle` identifies the live object. */
  datatype Response = Response(status: int, statusText: string, handle: nat)

  datatype Redirect = RedirectError | RedirectFollow | RedirectManual

  /** `TypicalRequestInit`: the `redirect` option of a request, if given. */
  datatype TypicalRequestInit = TypicalRequestInit(redirect: Option<Redirect>)

  /** A value caught by the library: an `Error` instance (by its `name`) or any other value. */
  datatype Caught<V> = CaughtError(name: string) | CaughtValue(value: V)

  datatype TypicalWrappedError<V> = TypicalWrappedError(
    name: string,
    message: string,
    wrappedError: Caught<V>,
    response: Option<Response>,
    bodyText: Option<string>,
    request: Option<TypicalRequestInit>)

  const WrappedErrorName := "TypicalWrappedError"

  /** `new TypicalWrappedError(wrappedError, response, bodyText, request)`. */
  function NewWrappedError<V>(wrappedError: Caught<V>, response: Option<Response>,
                              bodyText: Option<string>, request: Option<TypicalRequestInit>)
    : (e: TypicalWrappedError<V>)
    ensures e.name == WrappedErrorName
    ensures e.wrappedError == wrappedError && e.response == response
    ensures e.bodyText == bodyText && e.request == request
    ensures wrappedError.CaughtError? ==> e.message == wrappedError.name
    ensures wrappedError.CaughtValue? ==> e.message == "unknown"
  {
    var message := match wrappedError
      case CaughtError(name) => name
      case CaughtValue(_) => "unknown";
    TypicalWrappedError(WrappedErrorName, message, wrappedError, response, bodyText, request)
  }

  datatype TypicalHttpError = TypicalHttpError(
    name: string,
    message: string,
    status: int,
    statusText: string,
    req: Option<TypicalRequestInit>,
    res: Response)

  const HttpErrorName := "TypicalHttpError"

  /** `new TypicalHttpError(res, req)`: the message is `"<status> <statusText>"`. */
  function NewHttpError(res: Response, req: Option<TypicalRequestInit>): (e: TypicalHttpError)
    ensures e.name == HttpErrorName
    ensures e.status == res.status && e.statusText == res.statusText
    ensures e.res == res && e.req == req
    ensures e.message == IntToDecimal(res.status) + " " + res.statusText
  {
    TypicalHttpError(HttpErrorName, IntToDecimal(res.status) + " " + res.statusText,
                     res.status, res.statusText, req, res)
  }

  /**
   * The status and the status text can both be read back from an HTTP
   * error's message: the text before the first space parses to the status,
   * and the rest is the status text.
   */
  lemma HttpErrorMessageRecoversStatus(res: Response, req: Option<TypicalRequestInit>)
    ensures var msg := NewHttpError(res, req).message;
      var k := FirstSpace(msg);
      k < |msg| && ParseInt(msg[..k]) == Some(res.status) && msg[k + 1..] == res.statusText
  {
    var d := IntToDecimal(res.status);
    var msg := d + " " + res.statusText;
    FirstSpaceAfter(d, res.statusText);
    assert msg[..|d|] == d;
    assert msg[|d| + 1..] == res.statusText;
    ParseIntRoundTrip(res.status);
  }

  // ---------------------------------------------------------------------------
  // Decimal rendering of integers (JavaScript's `${n}` for an integral number)
  // ---------------------------------------------------------------------------

  predicate IsDigit(c: char)
  {
    '0' <= c <= '9'
  }

  predicate AllDigits(s: string)
  {
    forall i :: 0 <= i < |s| ==> IsDigit(s[i])
  }

  function DigitChar(d: nat): (c: char)
    requires d < 10
    ensures IsDigit(c) && (c as int) - ('0' as int) == d
  {
    (('0' as int) + d) as char
  }

  /** The shortest decimal numeral of `n`: no sign, no leading zero. */
  function NatToDecimal(n: nat): (s: string)
    ensures |s| > 0 && AllDigits(s)
    ensures s[0] == '0' ==> n == 0
    decreases n
  {
    if n < 10 then [DigitChar(n)] else NatToDecimal(n / 10) + [DigitChar(n % 10)]
  }

  function IntToDecimal(i: int): (s: string)
  {
    if i < 0 then "-" + NatToDecimal(-i) else NatToDecimal(i)
  }

  /** The value of a string of digits. */
  function DigitsValue(s: string): nat
    requires AllDigits(s)
  {
    if s == [] then 0
    else DigitsValue(s[..|s| - 1]) * 10 + ((s[|s| - 1] as int) - ('0' as int))
  }

  /** Reads an optionally negative decimal numeral; `None` for anything else. */
  function ParseInt(s: string): Option<int>
  {
    if |s| > 1 && s[0] == '-' && AllDigits(s[1..]) then Some(-(DigitsValue(s[1..]) as int))
    else if |s| > 0 && AllDigits(s) then Some(DigitsValue(s))
    else None
  }

  lemma {:induction false} DigitsValueRoundTrip(n: nat)
    ensures DigitsValue(NatToDecimal(n)) == n
    decreases n
  {
    if n >= 10 {
      var s := NatToDecimal(n);
      assert s[..|s| - 1] == NatToDecimal(n / 10);
      DigitsValueRoundTrip(n / 10);
    }
  }

  /** Rendering an integer and reading it back gives the integer. */
  lemma ParseIntRoundTrip(i: int)
    ensures ParseInt(IntToDecimal(i)) == Some(i)
  {
    if i < 0 {
      var s := IntToDecimal(i);
      assert s[1..] == NatToDecimal(-i);
      DigitsValueRoundTrip(-i);
    } else {
      DigitsValueRoundTrip(i);
    }
  }

  /** The index of the first space in `s`, or `|s|` when there is none. */
  function FirstSpace(s: string): (k: nat)
    ensures k <= |s|
    ensures k < |s| ==> s[k] == ' '
    ensures forall j :: 0 <= j < k ==> s[j] != ' '
  {
    if s == [] then 0 else if s[0] == ' ' then 0 else 1 + FirstSpace(s[1..])
  }

  lemma FirstSpaceAfter(p: string, q: string)
    requires forall j :: 0 <= j < |p| ==> p[j] != ' '
    ensures FirstSpace(p + " " + q) == |p|
  {
    var s := p + " " + q;
    assert s[|p|] == ' ';
  }
}
