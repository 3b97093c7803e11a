/** `NetworkResult` and `NetworkResult.handleResponse`: how the outcome of one
    API call (a status code with bodies, or a thrown exception) is classified. */
module NetworkResults {
  import opened Kotlin
  import opened NetworkErrors

  /** `NetworkResult<T>`. */
  datatype NetworkResult<+T> = Success(data: T) | Error(error: NetworkError) | Loading

  /** What `response.errorBody()?.string()` produced for a non-2xx response:
      no error body, its text, or an exception while reading it. */
  datatype ErrorBodySource = NoErrorBody | ErrorBodyText(text: string) | ErrorBodyUnreadable

  /** A completed HTTP exchange: status code, parsed success body (null when
      absent) and the raw error body. */
  datatype Response<+T> = Response(code: int, body: Option<T>, errorBody: ErrorBodySource)

  /** The outcome of `execute()`: a response, or an exception it threw. */
  datatype Call<+T> = Completed(response: Response<T>) | Threw(exception: JvmException)

  /** Retrofit's `Response.isSuccessful`: a status code in 200..299. */
  predicate IsSuccessful(code: int) {
    200 <= code <= 299
  }

  /** The exception `handleResponse` creates for a 2xx response without a body. */
  const NullBodyException: JvmException := JvmException(OtherException, Some("Response body is null"))

  /** `handleResponse`. */
  function HandleResponse<T>(call: Call<T>): (r: NetworkResult<T>)
    ensures !r.Loading?
  {
    match call
    case Threw(e) => Error(MapExceptionToNetworkError(e))
    case Completed(response) =>
      if IsSuccessful(response.code) then
        match response.body
        case Some(b) => Success(b)
        case None => Error(ParseError(NullBodyException))
      else
        var errorBody := ReadErrorBody(response.errorBody);
        if 400 <= response.code <= 499 then Error(ClientError(response.code, errorBody))
        else if 500 <= response.code <= 599 then Error(ServerError(response.code, errorBody))
        else Error(UnknownError(None))
  }

  /** The inner `try` of `handleResponse`: a failure to read the error body gives null. */
  function ReadErrorBody(source: ErrorBodySource): (r: Option<ErrorResponse>)
    ensures source.ErrorBodyText? <==> r.Some?
    ensures source.ErrorBodyText? ==> r == Some(ParseErrorBody(source.text))
  {
    match source
    case NoErrorBody => None
    case ErrorBodyText(text) => Some(ParseErrorBody(text))
    case ErrorBodyUnreadable => None
  }

  /** `mapExceptionToNetworkError`: the first matching `is` test wins. */
  function MapExceptionToNetworkError(e: JvmException): NetworkError {
    if e.cls.SocketTimeoutException? then Timeout(Some(e))
    else if e.cls.UnknownHostException? then UnknownHostError(e)
    else if IsIOException(e.cls) then NoConnectivity(Some(e))
    else UnknownError(Some(e))
  }

  /** The key `parseErrorBody` looks for, and the delimiter it cuts the message after. */
  const MessageKey: string := "message"
  const MessageOpener: string := "message\":\""

  /** `parseErrorBody`: a very rough reading of `{"message":"..."}`. */
  function ParseErrorBody(errorBody: string): (r: ErrorResponse)
    ensures r.technicalMessage.None? && r.errorCode.None? && r.fieldErrors.None?
  {
    var message :=
      if Contains(errorBody, MessageKey) then
        SubstringBefore(SubstringAfter(errorBody, MessageOpener), "\"")
      else
        "Unknown error";
    ErrorResponse(message := message)
  }

  // ---------------------------------------------------------------------------
  // Properties of the classification

  /** A 2xx response with a body succeeds with that body; without one it is a `ParseError`. */
  lemma SuccessfulResponse<T>(code: int, body: Option<T>, errorBody: ErrorBodySource)
    requires IsSuccessful(code)
    ensures body.Some? ==> HandleResponse(Completed(Response(code, body, errorBody))) == Success(body.value)
    ensures body.None? ==> HandleResponse(Completed(Response(code, body, errorBody))) == Error(ParseError(NullBodyException))
  {
  }

  /** A non-2xx response is a client error for 4xx, a server error for 5xx, with the
      response's own code, and `UnknownError` for anything else. The parsed error
      body (null when it could not be read) never changes the category. */
  lemma UnsuccessfulResponse<T>(response: Response<T>)
    requires !IsSuccessful(response.code)
    ensures var r := HandleResponse(Completed(response));
      r.Error? &&
      (400 <= response.code <= 499 <==> r.error.ClientError?) &&
      (500 <= response.code <= 599 <==> r.error.ServerError?) &&
      (r.error.ClientError? || r.error.ServerError? ==>
         r.error.code == response.code && r.error.errorBody == ReadErrorBody(response.errorBody)) &&
      (!(400 <= response.code <= 599) <==> r.error == UnknownError(None))
  {
  }

  /** The error body only decides `errorBody`: two responses that differ only in it
      land in the same category with the same code. */
  lemma ErrorBodyDoesNotDecideCategory<T>(code: int, body: Option<T>, e1: ErrorBodySource, e2: ErrorBodySource)
    requires !IsSuccessful(code)
    ensures var r1 := HandleResponse(Completed(Response(code, body, e1)));
      var r2 := HandleResponse(Completed(Response(code, body, e2)));
      r1.Error? && r2.Error? && Kind(r1.error) == Kind(r2.error) &&
      r1.error.ClientError? == r2.error.ClientError? &&
      (r1.error.ClientError? || r1.error.ServerError? ==> r1.error.code == r2.error.code)
  {
  }

  /** Thrown exceptions: a timeout is `Timeout`, an unknown host `UnknownHostError`, any
      other `IOException` `NoConnectivity`, anything else `UnknownError`; each keeps the
      exception. */
  lemma ThrownException(e: JvmException)
    ensures var r := HandleResponse<()>(Threw(e));
      r.Error? &&
      (e.cls.SocketTimeoutException? <==> r.error == Timeout(Some(e))) &&
      (e.cls.UnknownHostException? <==> r.error == UnknownHostError(e)) &&
      (e.cls.OtherIOException? <==> r.error == NoConnectivity(Some(e))) &&
      (!IsIOException(e.cls) <==> r.error == UnknownError(Some(e)))
  {
  }

  /** Every `IOException` is classified as a connection problem, and nothing else is. */
  lemma IOExceptionsAreConnectionErrors(e: JvmException)
    ensures var n := MapExceptionToNetworkError(e);
      IsIOException(e.cls) <==> (n.Timeout? || n.UnknownHostError? || n.NoConnectivity?)
  {
  }

  /** Without the key "message" the body's message is "Unknown error". */
  lemma ParseErrorBodyWithoutKey(text: string)
    requires !Contains(text, MessageKey)
    ensures ParseErrorBody(text).message == "Unknown error"
  {
  }

  /** With the key, the message is what lies after the first `message":"` (or the whole
      text if that opener is absent) up to the next quote, so it never holds a quote. */
  lemma ParseErrorBodyWithKey(text: string)
    requires Contains(text, MessageKey)
    ensures ParseErrorBody(text).message == SubstringBefore(SubstringAfter(text, MessageOpener), "\"")
    ensures '"' !in ParseErrorBody(text).message
  {
    SubstringBeforeCharFree(SubstringAfter(text, MessageOpener), '"');
  }

  /** The body `{"message":"M"...` yields the message `M` whenever `M` holds no quote. */
  lemma {:induction false} ParseJsonMessage(m: string, rest: string)
    requires '"' !in m
    ensures ParseErrorBody("{\"message\":\"" + m + "\"" + rest).message == m
  {
    var text := "{\"message\":\"" + m + "\"" + rest;
    assert OccursAt(text, MessageOpener, 2) by {
      assert text[2..2 + |MessageOpener|] == MessageOpener;
    }
    assert OccursAt(text, MessageKey, 2) by {
      assert text[2..2 + |MessageKey|] == MessageKey;
    }
    ContainsIff(text, MessageKey, 2);
    FirstCharMismatch(text, MessageOpener, 0);
    FirstCharMismatch(text, MessageOpener, 1);
    SubstringAfterAt(text, MessageOpener, 2);
    assert text[2 + |MessageOpener|..] == m + "\"" + rest;
    SubstringBeforeChar(m, '"', rest);
  }
}
