/** RestClient (OkHttpRestClient.kt): builds a request, executes it, and classifies the
    outcome into a Response. The transport's behaviour is a parameter: `execution` says
    whether `execute()` threw, and otherwise which status and body it returned. */
module RestClient {
  import opened Wrappers
  import opened Responses
  import opened OkHttp

  /** RestClient.ExpectedResponse: how the caller wants a 200 body interpreted. */
  datatype ExpectedResponse = Jwt | Json | Ignore | File | PlainText

  /** Size of the array the `file` branch reads into. */
  const ChunkSize := 1024

  // ---------------------------------------------------------------------------
  // Specification: the result a call produces, as a function of the transport outcome.
  // ---------------------------------------------------------------------------

  /** What a body will deliver, read before the call touches it. */
  datatype BodyView = BodyView(content: seq<byte>, failsAtEnd: bool, objectString: Option<string>, decode: seq<byte> -> string)

  function ViewOf(body: ResponseBody?): Option<BodyView>
    reads body
  {
    if body == null then None
    else Some(BodyView(body.Remaining(), body.failsAtEnd, body.objectString, body.decode))
  }

  function ExecutionView(execution: Outcome<ResponseBody?>): Outcome<Option<BodyView>>
    reads if execution.Returned? then {execution.body} else {}
  {
    match execution
    case Threw(kind) => Threw(kind)
    case Returned(status, body) => Returned(status, ViewOf(body))
  }

  /** The three exception classes that mean the host could not be reached. */
  predicate IsConnectivityFailure(kind: ExceptionKind) {
    kind == NoRouteToHost || kind == UnknownHost || kind == SocketTimeout
  }

  /** The scan over `expectedCodes`: does some element carry `status` as its value? */
  predicate IsExpected(status: int, codes: seq<Code>) {
    codes != [] && (codes[0].Value() == status || IsExpected(status, codes[1..]))
  }

  /** The set of values the caller's expected codes carry. */
  function ValuesOf(codes: seq<Code>): set<int> {
    set c | c in codes :: c.Value()
  }

  /** A result is well formed when a code is set, it is not Pending, and a payload is
      present only under Ok, and never both payloads at once. */
  predicate WellFormed(r: ResultValue) {
    && r.code.Some? && r.code.value != Pending
    && (r.response.Some? || r.fileBytes.Some? ==> r.code == Some(Ok))
    && !(r.response.Some? && r.fileBytes.Some?)
  }

  /** parse200: Ok with the payload the expectation asks for, or Error. */
  function Parse200Result(body: Option<BodyView>, expected: ExpectedResponse): (r: ResultValue)
    ensures WellFormed(r)
    ensures r.code.value in {Ok, Error}
    ensures r.fileBytes.Some? <==> expected == File && r.code == Some(Ok)
    ensures r.fileBytes.Some? ==> body.Some? && r.fileBytes.value == body.value.content
    ensures r.response.Some? ==> expected in {Json, PlainText}
    ensures expected in {Jwt, Ignore} ==> r == CodeOnly(Error)
  {
    match expected
    case Json =>
      // `response.body.toString()`: on a null body Kotlin answers "null".
      var json := if body.None? then Some("null") else body.value.objectString;
      if json.None? then CodeOnly(Error) else ResultValue(Some(Ok), json, None)
    case File =>
      if body.None? || body.value.failsAtEnd then CodeOnly(Error)
      else ResultValue(Some(Ok), None, Some(body.value.content))
    case PlainText =>
      if body.None? then ResultValue(Some(Ok), None, None)
      else if body.value.failsAtEnd then CodeOnly(Error)
      else ResultValue(Some(Ok), Some(body.value.decode(body.value.content)), None)
    case Jwt => CodeOnly(Error)
    case Ignore => CodeOnly(Error)
  }

  /** The `when (response.code)` dispatch, taken once the status has matched. */
  function Dispatched(status: int, body: Option<BodyView>, expected: ExpectedResponse): (r: ResultValue)
    ensures WellFormed(r)
    ensures status != 200 ==> r.response.None? && r.fileBytes.None?
  {
    if status == 200 then Parse200Result(body, expected)
    else if status == 400 then CodeOnly(BadRequest)
    else if status == 401 then CodeOnly(Unauthorized)
    else if status == 403 then CodeOnly(Forbidden)
    else if status == 404 then CodeOnly(NotFound)
    else CodeOnly(Error)
  }

  /** makeRequestAndParseResponse as a function of the transport outcome. */
  function CallResult(execution: Outcome<Option<BodyView>>, expected: ExpectedResponse, codes: seq<Code>): (r: ResultValue)
    ensures WellFormed(r)
    ensures r.code == Some(Connectivity) <==> execution.Threw? && IsConnectivityFailure(execution.kind)
    ensures execution.Threw? ==> r.response.None? && r.fileBytes.None?
  {
    match execution
    case Threw(kind) => CodeOnly(if IsConnectivityFailure(kind) then Connectivity else Error)
    case Returned(status, body) =>
      if IsExpected(status, codes) then Dispatched(status, body, expected) else CodeOnly(Error)
  }

  /** Whether the call consumes the body's byte stream. */
  predicate ReadsBody(status: int, expected: ExpectedResponse, codes: seq<Code>) {
    IsExpected(status, codes) && status == 200 && (expected == File || expected == PlainText)
  }

  // ---------------------------------------------------------------------------
  // The client's operations.
  // ---------------------------------------------------------------------------

  /** Lines 80-90 of makeCall: the request builder. A header is added for every key whose
      value is non-null; the request is a POST exactly when a body is given. */
  method BuildRequest(url: Option<string>, requestBody: Option<RequestBody>, extraHeaders: Option<map<string, Option<string>>>)
    returns (request: Request)
    ensures request.url == url.GetOr("")
    ensures request.verb == POST <==> requestBody.Some?
    ensures request.body == requestBody
    ensures forall h :: h in request.headers <==>
      extraHeaders.Some? && h.name in extraHeaders.value && extraHeaders.value[h.name] == Some(h.value)
    ensures forall i, j :: 0 <= i < j < |request.headers| ==> request.headers[i].name != request.headers[j].name
    ensures extraHeaders.None? ==> request.headers == []
  {
    var builder := new RequestBuilder(url.GetOr(""));
    if extraHeaders.Some? {
      var headers := extraHeaders.value;
      var keys := headers.Keys;
      while keys != {}
        invariant keys <= headers.Keys
        invariant builder.url == url.GetOr("") && builder.verb == GET && builder.body == None
        invariant forall h :: h in builder.headers <==>
          h.name in headers && h.name !in keys && headers[h.name] == Some(h.value)
        invariant forall i, j :: 0 <= i < j < |builder.headers| ==> builder.headers[i].name != builder.headers[j].name
        decreases keys
      {
        var key :| key in keys;
        var value := headers[key];
        if value.Some? {
          builder.AddHeader(key, value.value);
        }
        keys := keys - {key};
      }
    }
    if requestBody.Some? {
      builder.Post(requestBody.value);
    }
    request := builder.Build();
  }

  /** parse400 .. parse404: a holder carrying a fixed code and no payload. The response
      they are handed is never looked at. */
  method Parse400() returns (r: Response)
    ensures fresh(r) && r.Snapshot() == CodeOnly(BadRequest)
  {
    r := new Response();
    r.code := Some(BadRequest);
  }

  method Parse401() returns (r: Response)
    ensures fresh(r) && r.Snapshot() == CodeOnly(Unauthorized)
  {
    r := new Response();
    r.code := Some(Unauthorized);
  }

  method Parse403() returns (r: Response)
    ensures fresh(r) && r.Snapshot() == CodeOnly(Forbidden)
  {
    r := new Response();
    r.code := Some(Forbidden);
  }

  method Parse404() returns (r: Response)
    ensures fresh(r) && r.Snapshot() == CodeOnly(NotFound)
  {
    r := new Response();
    r.code := Some(NotFound);
  }

  /** parse200: fills a fresh holder according to the expectation. Only the `file` and
      `plaintext` branches read the body, and none of them closes it. */
  method Parse200(body: ResponseBody?, expected: ExpectedResponse) returns (r: Response)
    requires body != null ==> body.Valid()
    modifies body
    ensures fresh(r) && r.Snapshot() == Parse200Result(old(ViewOf(body)), expected)
    ensures body != null ==> body.Valid() && body.closeCount == old(body.closeCount)
    ensures body != null && expected != File && expected != PlainText ==> body.pending == old(body.pending)
    ensures body != null && (expected == File || expected == PlainText) ==> body.pending == []
  {
    r := new Response();
    r.code := Some(Ok);
    if expected == Json {
      var json := if body == null then Some("null") else body.objectString;
      if json.None? {
        r.code := Some(Error);
        return;
      }
      r.response := json;
    } else if expected == File {
      if body == null {
        // `response.body!!` throws a NullPointerException
        r.code := Some(Error);
        return;
      }
      var data := new byte[ChunkSize];
      var buffer: seq<byte> := [];
      while true
        invariant body.Valid() && body.closeCount == old(body.closeCount)
        invariant buffer + body.Remaining() == old(body.Remaining())
        invariant r.Snapshot() == ResultValue(Some(Ok), None, None)
        decreases |body.Remaining()|
      {
        var numRead := body.Read(data, 0, data.Length);
        if numRead == ReadFailure {
          r.code := Some(Error);
          return;
        }
        if numRead.n == -1 {
          break;
        }
        buffer := buffer + data[..numRead.n];
      }
      assert buffer == old(body.Remaining());
      r.fileBytes := Some(buffer);
    } else if expected == PlainText {
      if body != null {
        var text := body.String();
        if text.None? {
          r.code := Some(Error);
          return;
        }
        r.response := text;
      }
    } else {
      r.code := Some(Error);
      return;
    }
  }

  /** makeRequestAndParseResponse: classifies an exception from `execute()`, otherwise
      scans `expectedCodes` for the status and dispatches on it, and finally closes the
      body, if there is one, exactly once. */
  method MakeRequestAndParseResponse(execution: Outcome<ResponseBody?>, expected: ExpectedResponse, expectedCodes: seq<Code>)
    returns (r: Response)
    requires execution.Returned? && execution.body != null ==> execution.body.Valid()
    modifies if execution.Returned? then {execution.body} else {}
    ensures fresh(r)
    ensures r.Snapshot() == CallResult(old(ExecutionView(execution)), expected, expectedCodes)
    ensures execution.Returned? && execution.body != null ==>
      execution.body.closeCount == old(execution.body.closeCount) + 1
    ensures execution.Returned? && execution.body != null && !ReadsBody(execution.status, expected, expectedCodes) ==>
      execution.body.pending == old(execution.body.pending)
    ensures execution.Returned? && execution.body != null && ReadsBody(execution.status, expected, expectedCodes) ==>
      execution.body.pending == []
  {
    if execution.Threw? {
      r := new Response();
      match execution.kind {
        case NoRouteToHost => r.code := Some(Connectivity);
        case UnknownHost => r.code := Some(Connectivity);
        case SocketTimeout => r.code := Some(Connectivity);
        case OtherIOException => r.code := Some(Error);
      }
      return;
    }
    var status, body := execution.status, execution.body;
    var matched := false;
    var i := 0;
    while i < |expectedCodes|
      invariant 0 <= i <= |expectedCodes|
      invariant forall j :: 0 <= j < i ==> expectedCodes[j].Value() != status
      invariant body != null ==> body.Valid() && unchanged(body)
    {
      if status == expectedCodes[i].Value() {
        if status == 200 {
          r := Parse200(body, expected);
        } else if status == 400 {
          r := Parse400();
        } else if status == 401 {
          r := Parse401();
        } else if status == 403 {
          r := Parse403();
        } else if status == 404 {
          r := Parse404();
        } else {
          r := new Response();
          r.code := Some(Error);
        }
        matched := true;
        break;
      }
      i := i + 1;
    }
    IsExpectedIff(status, expectedCodes);
    if !matched {
      r := new Response();
      r.code := Some(Error);
    }
    // finally
    if body != null {
      body.Close();
    }
  }

  /** makeCall: builds the request and runs it. `execution` stands for what the transport
      does with the request that is returned alongside the result. */
  method MakeCall(url: Option<string>, requestBody: Option<RequestBody>, expected: ExpectedResponse,
                  extraHeaders: Option<map<string, Option<string>>>, expectedCodes: seq<Code>,
                  execution: Outcome<ResponseBody?>)
    returns (request: Request, r: Response)
    requires execution.Returned? && execution.body != null ==> execution.body.Valid()
    modifies if execution.Returned? then {execution.body} else {}
    ensures request.url == url.GetOr("") && request.body == requestBody
    ensures request.verb == POST <==> requestBody.Some?
    ensures forall h :: h in request.headers <==>
      extraHeaders.Some? && h.name in extraHeaders.value && extraHeaders.value[h.name] == Some(h.value)
    ensures forall i, j :: 0 <= i < j < |request.headers| ==> request.headers[i].name != request.headers[j].name
    ensures fresh(r)
    ensures r.Snapshot() == CallResult(old(ExecutionView(execution)), expected, expectedCodes)
    ensures execution.Returned? && execution.body != null ==>
      execution.body.closeCount == old(execution.body.closeCount) + 1
    ensures execution.Returned? && execution.body != null && !ReadsBody(execution.status, expected, expectedCodes) ==>
      execution.body.pending == old(execution.body.pending)
    ensures execution.Returned? && execution.body != null && ReadsBody(execution.status, expected, expectedCodes) ==>
      execution.body.pending == []
  {
    request := BuildRequest(url, requestBody, extraHeaders);
    r := MakeRequestAndParseResponse(execution, expected, expectedCodes);
  }

  // ---------------------------------------------------------------------------
  // Properties of the specification.
  // ---------------------------------------------------------------------------

  /** The scan finds the status exactly when some expected code carries it as its value. */
  lemma {:induction false} IsExpectedIff(status: int, codes: seq<Code>)
    ensures IsExpected(status, codes) <==> status in ValuesOf(codes)
    ensures IsExpected(status, codes) <==> exists j :: 0 <= j < |codes| && codes[j].Value() == status
  {
    if codes != [] {
      IsExpectedIff(status, codes[1..]);
      assert codes == [codes[0]] + codes[1..];
      assert ValuesOf(codes) == {codes[0].Value()} + ValuesOf(codes[1..]);
      if IsExpected(status, codes[1..]) {
        var j :| 0 <= j < |codes[1..]| && codes[1..][j].Value() == status;
        assert codes[j + 1].Value() == status;
      }
      if j :| 0 <= j < |codes| && codes[j].Value() == status {
        if j > 0 {
          assert codes[1..][j - 1].Value() == status;
        }
      }
    }
  }

  /** An exception from `execute()` gives Connectivity for the three unreachable-host
      classes and Error for any other IOException, with no payload either way. */
  lemma TransportExceptionResult(kind: ExceptionKind, expected: ExpectedResponse, codes: seq<Code>)
    ensures kind != OtherIOException ==> CallResult(Threw(kind), expected, codes) == CodeOnly(Connectivity)
    ensures kind == OtherIOException ==> CallResult(Threw(kind), expected, codes) == CodeOnly(Error)
  {
  }

  /** A status that no expected code carries gives Error, whatever the status is. */
  lemma UnexpectedStatusIsError(status: int, body: Option<BodyView>, expected: ExpectedResponse, codes: seq<Code>)
    requires forall c :: c in codes ==> c.Value() != status
    ensures CallResult(Returned(status, body), expected, codes) == CodeOnly(Error)
  {
    IsExpectedIff(status, codes);
  }

  /** In particular an empty list of expected codes makes every response an Error,
      and so does a 200 when Ok is not among them. */
  lemma UnexpectedSuccessIsError(body: Option<BodyView>, expected: ExpectedResponse, codes: seq<Code>)
    requires Ok !in codes
    ensures CallResult(Returned(200, body), expected, codes) == CodeOnly(Error)
    ensures CallResult(Returned(200, body), expected, []) == CodeOnly(Error)
  {
    forall c | c in codes
      ensures c.Value() != 200
    {
      ValueInjective(c, Ok);
    }
    UnexpectedStatusIsError(200, body, expected, codes);
  }

  /** Only the set of values of the expected codes matters: not their order, not
      repetitions, and not which enum constant matched. */
  lemma OnlyExpectedValuesMatter(execution: Outcome<Option<BodyView>>, expected: ExpectedResponse, codes: seq<Code>, others: seq<Code>)
    requires ValuesOf(codes) == ValuesOf(others)
    ensures CallResult(execution, expected, codes) == CallResult(execution, expected, others)
  {
    if execution.Returned? {
      IsExpectedIff(execution.status, codes);
      IsExpectedIff(execution.status, others);
    }
  }

  /** A matched 400, 401, 403 or 404 gives the matching code with no payload; a matched
      status outside the five known ones gives Error. */
  lemma MatchedStatusResult(status: int, body: Option<BodyView>, expected: ExpectedResponse, codes: seq<Code>)
    requires status in ValuesOf(codes)
    ensures status == 400 ==> CallResult(Returned(status, body), expected, codes) == CodeOnly(BadRequest)
    ensures status == 401 ==> CallResult(Returned(status, body), expected, codes) == CodeOnly(Unauthorized)
    ensures status == 403 ==> CallResult(Returned(status, body), expected, codes) == CodeOnly(Forbidden)
    ensures status == 404 ==> CallResult(Returned(status, body), expected, codes) == CodeOnly(NotFound)
    ensures status == 200 ==> CallResult(Returned(status, body), expected, codes) == Parse200Result(body, expected)
    ensures status !in {200, 400, 401, 403, 404} ==> CallResult(Returned(status, body), expected, codes) == CodeOnly(Error)
  {
    IsExpectedIff(status, codes);
  }

  /** The fallback arm of the dispatch is reachable only for the values of Connectivity,
      Error and Pending: every other value an expected code can carry is one of the five
      HTTP statuses the dispatch names. */
  lemma FallbackOnlyForNonHttpValues(status: int, codes: seq<Code>)
    requires status in ValuesOf(codes)
    requires status !in {200, 400, 401, 403, 404}
    ensures status in {-2, -1, 0}
  {
  }

  /** The `file` expectation: Ok with every byte of the body, in order, however the stream
      was split into reads; Error with no bytes when the body is null or a read fails. */
  lemma FileResult(body: Option<BodyView>, codes: seq<Code>)
    requires Ok in codes
    ensures body.Some? && !body.value.failsAtEnd ==>
      CallResult(Returned(200, body), File, codes) == ResultValue(Some(Ok), None, Some(body.value.content))
    ensures body.None? || body.value.failsAtEnd ==>
      CallResult(Returned(200, body), File, codes) == CodeOnly(Error)
  {
    assert Ok.Value() in ValuesOf(codes);
    IsExpectedIff(200, codes);
  }

  /** The `plaintext` and `json` expectations on a matched 200. */
  lemma TextResults(body: Option<BodyView>, codes: seq<Code>)
    requires Ok in codes
    ensures body.None? ==> CallResult(Returned(200, body), PlainText, codes) == ResultValue(Some(Ok), None, None)
    ensures body.Some? && body.value.failsAtEnd ==> CallResult(Returned(200, body), PlainText, codes) == CodeOnly(Error)
    ensures body.Some? && !body.value.failsAtEnd ==>
      CallResult(Returned(200, body), PlainText, codes) == ResultValue(Some(Ok), Some(body.value.decode(body.value.content)), None)
    ensures body.None? ==> CallResult(Returned(200, body), Json, codes) == ResultValue(Some(Ok), Some("null"), None)
    ensures body.Some? && body.value.objectString.Some? ==>
      CallResult(Returned(200, body), Json, codes) == ResultValue(Some(Ok), body.value.objectString, None)
    ensures body.Some? && body.value.objectString.None? ==>
      CallResult(Returned(200, body), Json, codes) == CodeOnly(Error)
    ensures CallResult(Returned(200, body), Jwt, codes) == CodeOnly(Error)
    ensures CallResult(Returned(200, body), Ignore, codes) == CodeOnly(Error)
  {
    assert Ok.Value() in ValuesOf(codes);
    IsExpectedIff(200, codes);
  }
}
