/** The transport the client calls into, reduced to what the client observes of it:
    the request it builds, the outcome of executing it, and the response body. */
module OkHttp {
  import opened Wrappers
  import opened Responses

  /** The exception classes the client distinguishes when `execute()` throws. */
  datatype ExceptionKind = NoRouteToHost | UnknownHost | SocketTimeout | OtherIOException

  /** What `client.newCall(request).execute()` did: it threw, or it returned a response
      with an integer status code and a body (`B` is the body, possibly null). */
  datatype Outcome<B> = Threw(kind: ExceptionKind) | Returned(status: int, body: B)

  /** Concatenation of network segments. */
  function Flatten(segments: seq<seq<byte>>): seq<byte> {
    if segments == [] then [] else segments[0] + Flatten(segments[1..])
  }

  /** Delivering two runs of segments one after the other delivers their bytes in order. */
  lemma {:induction false} FlattenAppend(s: seq<seq<byte>>, t: seq<seq<byte>>)
    ensures Flatten(s + t) == Flatten(s) + Flatten(t)
  {
    if s != [] {
      assert (s + t)[1..] == s[1..] + t;
      FlattenAppend(s[1..], t);
    } else {
      assert s + t == t;
    }
  }

  /** What InputStream.read returns: a byte count, -1 at end of stream, or an IOException. */
  datatype ReadResult = Count(n: int) | ReadFailure

  /** A response body. Its byte stream delivers `pending` segment by segment; a read may
      return fewer bytes than asked for. When every segment has been delivered the stream
      reports end of stream, or throws an IOException if `failsAtEnd` holds, which models a
      connection lost in the middle of the body. */
  class ResponseBody {
    var pending: seq<seq<byte>>
    const failsAtEnd: bool
    /** The body object's `toString()`, or None when that call throws. */
    const objectString: Option<string>
    /** The charset decoding that `string()` applies to the body's bytes. */
    const decode: seq<byte> -> string
    /** How many times `close()` has been called on this body. */
    var closeCount: nat

    ghost predicate Valid()
      reads this
    {
      forall i :: 0 <= i < |pending| ==> pending[i] != []
    }

    /** The bytes the stream has yet to deliver. */
    function Remaining(): seq<byte>
      reads this
    {
      Flatten(pending)
    }

    constructor (segments: seq<seq<byte>>, failsAtEnd: bool, objectString: Option<string>, decode: seq<byte> -> string)
      requires forall i :: 0 <= i < |segments| ==> segments[i] != []
      ensures Valid() && pending == segments && closeCount == 0
      ensures this.failsAtEnd == failsAtEnd && this.objectString == objectString && this.decode == decode
    {
      pending := segments;
      this.failsAtEnd := failsAtEnd;
      this.objectString := objectString;
      this.decode := decode;
      closeCount := 0;
    }

    /** `byteStream().read(data, off, len)`: copies between 1 and `len` bytes into
        `data[off..]`, or answers -1 at end of stream, or throws. */
    method Read(data: array<byte>, off: nat, len: nat) returns (r: ReadResult)
      requires Valid() && 0 < len && off + len <= data.Length
      modifies this, data
      ensures Valid() && closeCount == old(closeCount)
      ensures old(pending) == [] ==> pending == [] && r == (if failsAtEnd then ReadFailure else Count(-1))
      ensures old(pending) != [] ==>
        && r.Count? && 1 <= r.n <= len
        && data[off..off + r.n] + Remaining() == old(Remaining())
        && data[..off] == old(data[..off]) && data[off + r.n..] == old(data[off + r.n..])
    {
      if pending == [] {
        return if failsAtEnd then ReadFailure else Count(-1);
      }
      var segment := pending[0];
      var n := if |segment| < len then |segment| else len;
      forall i | 0 <= i < n {
        data[off + i] := segment[i];
      }
      assert data[off..off + n] == segment[..n];
      if n == |segment| {
        pending := pending[1..];
      } else {
        pending := [segment[n..]] + pending[1..];
        FlattenAppend([segment[n..]], old(pending)[1..]);
      }
      return Count(n);
    }

    /** `string()`: reads the whole body and decodes it, or throws an IOException. */
    method String() returns (r: Option<string>)
      requires Valid()
      modifies this
      ensures Valid() && pending == [] && closeCount == old(closeCount)
      ensures r == if failsAtEnd then None else Some(decode(old(Remaining())))
    {
      var content := Remaining();
      pending := [];
      return if failsAtEnd then None else Some(decode(content));
    }

    /** `close()`: releases the connection behind the body. */
    method Close()
      modifies this
      ensures closeCount == old(closeCount) + 1 && pending == old(pending)
    {
      closeCount := closeCount + 1;
    }
  }

  datatype Method = GET | POST

  datatype Header = Header(name: string, value: string)

  /** A request body: its media type and its bytes. */
  datatype RequestBody = RequestBody(mediaType: string, content: seq<byte>)

  datatype Request = Request(url: string, verb: Method, headers: seq<Header>, body: Option<RequestBody>)

  /** `Request.Builder`: starts as a GET with no headers; `post` switches it to a POST. */
  class RequestBuilder {
    var url: string
    var verb: Method
    var headers: seq<Header>
    var body: Option<RequestBody>

    constructor (url: string)
      ensures this.url == url && verb == GET && headers == [] && body == None
    {
      this.url := url;
      verb := GET;
      headers := [];
      body := None;
    }

    method AddHeader(name: string, value: string)
      modifies this
      ensures headers == old(headers) + [Header(name, value)]
      ensures url == old(url) && verb == old(verb) && body == old(body)
    {
      headers := headers + [Header(name, value)];
    }

    method Post(requestBody: RequestBody)
      modifies this
      ensures verb == POST && body == Some(requestBody)
      ensures url == old(url) && headers == old(headers)
    {
      verb := POST;
      body := Some(requestBody);
    }

    function Build(): Request
      reads this
    {
      Request(url, verb, headers, body)
    }
  }
}
