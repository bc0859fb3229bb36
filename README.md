# RestClient request classification, in Dafny

This project models the request pipeline of `RestClient`, a small Kotlin facade over the
OkHttp client. A call builds a request, executes it, and turns the outcome into a `Response`
holder. The holder carries one of eight result codes, plus at most one payload: a text or
a byte array.

- `Responses` (responses.dfy) models Response.kt. It holds the `Code` enum with its integer
  values, their partial inverse `FromValue`, and the mutable `Response` class with its
  fields `code`, `response` and `fileBytes`. Kotlin `null` and an unassigned `lateinit`
  property are both `None`.
- `OkHttp` (okhttp.dfy) holds what the client sees of the transport. `Outcome` says whether
  `execute()` threw one of four exception kinds or returned a status and a possibly-null
  body. `ResponseBody` is a body whose byte stream delivers a list of non-empty segments,
  possibly in short reads, and then reports end of stream or throws an IOException.
  `RequestBuilder` is the mutable request builder.
- `RestClient` (rest_client.dfy) models OkHttpRestClient.kt. The imperative methods
  `BuildRequest`, `MakeCall`, `MakeRequestAndParseResponse`, `Parse200` and `Parse400` to
  `Parse404` follow the Kotlin code branch for branch. `MakeCall` and
  `MakeRequestAndParseResponse` are proved equal to the specification function
  `CallResult`, `Parse200` to `Parse200Result`, and `Parse400` to `Parse404` to `CodeOnly`
  of their code. `BuildRequest`'s contract states the request's URL, headers, method and
  body directly. Lemmas then state the classification properties of those functions.

Where the code's behaviour differs from what its names suggest, the model follows the code:

- `ignore` and `jwt` expectations fall into the last `else` of `parse200` and give `Error`.
- The `json` branch stores the body object's `toString()`, not its content. On a null body
  Kotlin's `toString()` gives `"null"`, so the result is `Ok` with text `"null"`.
- A fresh `Response` has a null code, not `Pending`.

Every call path sets a code, and no path yields `Pending`.

## Model

| member | source | states |
|---|---|---|
| Responses.Code.Value | Response.kt:6-7 | each code's integer value; only Connectivity, Error and Pending are non-positive, and the other five lie in 200..499 |
| Responses.FromValue | Response.kt:7 | the partial inverse of `value`: when it answers, it gives the code with that value; when it does not, no code has that value |
| Responses.ValueInjective | Response.kt:7 | the eight values are pairwise distinct, and `FromValue` recovers every code from its value |
| Responses.Response.constructor | Response.kt:1-4 | a fresh holder has a null code (not Pending), a null text and no file bytes |
| RestClient.BuildRequest | OkHttpRestClient.kt:80-90 | the URL is `url ?: ""`; a header is sent for exactly the keys whose value is non-null, each key once, and no headers at all when the map is null; the request is a POST exactly when a body is given, and carries that body |
| RestClient.MakeCall | OkHttpRestClient.kt:72-92 | the request has URL `url ?: ""`, one header for each key with a non-null value and no key twice, and is a POST exactly when a body is given; the result of running it is `CallResult` of the transport outcome; the body is closed once, and read to its end exactly when a matched 200 expects `file` or `plaintext`, otherwise left unread |
| RestClient.MakeRequestAndParseResponse | OkHttpRestClient.kt:94-141 | the holder equals `CallResult` of the outcome; a non-null body is closed exactly once on every path, and its stream is read to its end when a matched 200 expects `file` or `plaintext` and left unread otherwise; nothing is touched when `execute()` threw |
| RestClient.Parse200 | OkHttpRestClient.kt:143-194 | the holder equals `Parse200Result` of the body as it was; the `file` loop drains the stream in 1024-byte reads and stores every byte in order; `file` and `plaintext` leave the stream at its end, on success and on failure alike; the other branches leave it unread; no branch closes the body |
| RestClient.Parse400 | OkHttpRestClient.kt:196-200 | a fresh holder with code BadRequest and no payload |
| RestClient.Parse401 | OkHttpRestClient.kt:202-206 | a fresh holder with code Unauthorized and no payload |
| RestClient.Parse403 | OkHttpRestClient.kt:208-212 | a fresh holder with code Forbidden and no payload |
| RestClient.Parse404 | OkHttpRestClient.kt:214-218 | a fresh holder with code NotFound and no payload |
| RestClient.Parse200Result | OkHttpRestClient.kt:143-194 | the 200 result is Ok or Error and well formed; file bytes are present exactly on a successful `file` read and are then the body's whole content; text appears only for `json` and `plaintext`; `jwt` and `ignore` give a bare Error |
| RestClient.Dispatched | OkHttpRestClient.kt:119-130 | the dispatch gives a well-formed result, and only the 200 arm can carry a payload |
| RestClient.CallResult | OkHttpRestClient.kt:97-135 | every outcome gives a well-formed result: a code is set, it is never Pending, a payload only comes with Ok, and never both payloads; Connectivity arises exactly from the three unreachable-host exceptions; an exception never leaves a payload |
| RestClient.IsExpectedIff | OkHttpRestClient.kt:117-118 | the scan over `expectedCodes` finds the status exactly when some element's value equals it |
| RestClient.TransportExceptionResult | OkHttpRestClient.kt:99-116 | NoRouteToHost, UnknownHost and SocketTimeout give Connectivity; any other IOException gives Error; no payload either way |
| RestClient.UnexpectedStatusIsError | OkHttpRestClient.kt:117-135 | a status carried by no expected code gives a bare Error, whatever the status |
| RestClient.UnexpectedSuccessIsError | OkHttpRestClient.kt:117-135 | a 200 gives Error when Ok is not expected, and also when the list is empty |
| RestClient.OnlyExpectedValuesMatter | OkHttpRestClient.kt:117-120 | two lists with the same set of values give the same result for every outcome: order, repetition and which constant matched do not matter |
| RestClient.MatchedStatusResult | OkHttpRestClient.kt:119-130 | a matched 400/401/403/404 gives BadRequest/Unauthorized/Forbidden/NotFound with no payload; a matched 200 gives the `parse200` result; any other matched status gives Error |
| RestClient.FallbackOnlyForNonHttpValues | OkHttpRestClient.kt:125-129 | the `else` arm of the dispatch can only be reached with status -2, -1 or 0 |
| RestClient.FileResult | OkHttpRestClient.kt:164-181 | with `file` expected and 200 matched: Ok with the body's whole content when the stream ends normally; Error with no bytes when the body is null or a read throws |
| RestClient.TextResults | OkHttpRestClient.kt:146-163 | `plaintext` gives Ok with the decoded body, Ok with no text on a null body, or Error when reading throws; `json` gives Ok with the body object's string form, `"null"` on a null body, or a bare Error when `toString()` throws; `jwt` and `ignore` give Error |

## Left out

- `post`, `get` and `getItems` (OkHttpRestClient.kt:26-70) are not modelled. They run `makeCall` on a new thread and join it at once, only to leave the calling thread. `get` and `getItems` then pass the result to the callback once, or not at all when `get` is given a null callback.
- The transport is a parameter. `execute()` is represented by its `Outcome`, and the request `MakeCall` builds is returned beside the result instead of being passed to a client. `OkHttpClient`, its configuration and the lazy `instance` singleton are not modelled.
- `makeRequestAndParseResponse` is public and takes a nullable request. A null request makes `request!!` throw a NullPointerException. `execute()` can also throw exceptions that are not IOExceptions. None of the four catches handles these, so the call ends in an exception after the `finally` block, with no holder returned. The model has no request parameter, and `ExceptionKind` holds only IOException kinds, so these paths are not represented.
- `Request.Builder().url(...)` validates the URL and can throw outside the `try`, for instance on the `""` that a null URL becomes. That validation belongs to OkHttp and is not modelled.
- `Request.Builder.addHeader` validates each header name and value and can throw outside the `try`. `OkHttp.RequestBuilder.AddHeader` always succeeds, so that failure is not modelled.
- The `file` branch collects the body in a JVM byte array, which cannot grow past about 2^31 bytes. A larger body raises an uncaught OutOfMemoryError, and a body that never ends keeps the loop running forever. `ResponseBody.pending` is a finite sequence with no size bound, so neither case exists in the model.
- `RequestBody.create`, media types and the charset decoding of `body.string()` are library calls. Decoding is the body's opaque `decode` function.
- OkHttp's `string()` closes the body's source internally before the `finally` block closes the body again. Only the client's own `close()` calls are counted.
- The body's `toString()` is opaque: `objectString`. It is `None` when that call throws, which stands for the `JsonParseException`, `IOException`, `AssertionError` and `NullPointerException` catches.
- The unused generic `type` parameter and the unused `response` argument of `parse400` to `parse404` are dropped.
- Logging and `printStackTrace` are not modelled.
- `Code.value` is declared `var` but never reassigned. It is modelled as a constant.
- The order in which a Kotlin map yields its keys is not modelled. `BuildRequest` takes the keys in an arbitrary order, so header order is unspecified.
- The `Callback` interface is not part of this model.
