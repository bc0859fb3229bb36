/** The result holder every call returns (Response.kt). */
module Responses {
  import opened Wrappers

  /** Response.Code: the closed set of result codes, each tagged with an integer value. */
  datatype Code = Connectivity | Error | Pending | Ok | BadRequest | Unauthorized | Forbidden | NotFound {

    /** The `value` each enum constant is declared with. Only the three codes that are
        not HTTP statuses have a non-positive value; the other five are HTTP statuses. */
    function Value(): (v: int)
      ensures v <= 0 <==> this in {Connectivity, Error, Pending}
      ensures v > 0 ==> 200 <= v < 500
    {
      match this
      case Connectivity => -2
      case Error => -1
      case Pending => 0
      case Ok => 200
      case BadRequest => 400
      case Unauthorized => 401
      case Forbidden => 403
      case NotFound => 404
    }
  }

  /** The inverse of Code.Value, defined where some code carries the value. */
  function FromValue(v: int): (r: Option<Code>)
    ensures r.Some? ==> r.value.Value() == v
    ensures r.None? ==> forall c: Code :: c.Value() != v
  {
    if v == -2 then Some(Connectivity)
    else if v == -1 then Some(Error)
    else if v == 0 then Some(Pending)
    else if v == 200 then Some(Ok)
    else if v == 400 then Some(BadRequest)
    else if v == 401 then Some(Unauthorized)
    else if v == 403 then Some(Forbidden)
    else if v == 404 then Some(NotFound)
    else None
  }

  /** The eight values are pairwise distinct, so FromValue undoes Value. */
  lemma ValueInjective(c: Code, d: Code)
    ensures FromValue(c.Value()) == Some(c)
    ensures c.Value() == d.Value() ==> c == d
  {
  }

  /** Kotlin `Byte`: a signed 8-bit value. */
  newtype byte = b: int | -128 <= b < 128

  /** The observable contents of a Response: None stands for Kotlin's null, and for
      `fileBytes` also for the `lateinit` property never having been assigned. */
  datatype ResultValue = ResultValue(code: Option<Code>, response: Option<string>, fileBytes: Option<seq<byte>>)

  /** A result carrying a code and no payload. */
  function CodeOnly(c: Code): ResultValue {
    ResultValue(Some(c), None, None)
  }

  /** Response: a mutable record whose fields the client assigns after construction. */
  class Response {
    var code: Option<Code>
    var response: Option<string>
    var fileBytes: Option<seq<byte>>

    /** A fresh holder has a null code (not Pending), a null text and no bytes. */
    constructor ()
      ensures Snapshot() == ResultValue(None, None, None)
    {
      code := None;
      response := None;
      fileBytes := None;
    }

    function Snapshot(): ResultValue
      reads this
    {
      ResultValue(code, response, fileBytes)
    }
  }
}
