/** The network error taxonomy: the structured error body an API may send, the
    seven `NetworkError` variants with their user and technical messages, and
    the `NetworkException` that carries a `NetworkError` up to the repository. */
module NetworkErrors {
  import opened Kotlin

  /** `ErrorResponse`: a parsed API error body. */
  datatype ErrorResponse = ErrorResponse(
    message: string,
    technicalMessage: Option<string> := None,
    errorCode: Option<string> := None,
    fieldErrors: Option<map<string, string>> := None)

  /** `NetworkError`. The nullable exception of `NoConnectivity`, `Timeout` and
      `UnknownError` is `exception`; `UnknownHostError` and `ParseError` always
      hold one (`hostException`, `parseException`). */
  datatype NetworkError =
    | NoConnectivity(exception: Option<JvmException>)
    | Timeout(exception: Option<JvmException>)
    | ClientError(code: int, errorBody: Option<ErrorResponse>)
    | ServerError(code: int, errorBody: Option<ErrorResponse>)
    | UnknownHostError(hostException: JvmException)
    | ParseError(parseException: JvmException)
    | UnknownError(exception: Option<JvmException>)
  {
    /** `getUserMessage()`: the text shown to the user. */
    function UserMessage(): string {
      match this
      case NoConnectivity(_) => "No internet connection. Please check your network settings."
      case Timeout(_) => "Request timed out. Please try again."
      case ClientError(code, body) =>
        if code == 401 then "Authentication required. Please log in again."
        else if code == 403 then "You don't have permission to access this resource."
        else if code == 404 then "The requested resource was not found."
        else (match body
          case Some(b) => b.message
          case None => "Client error: " + IntToString(code))
      case ServerError(_, _) => "Server error. Please try again later."
      case UnknownHostError(_) => "Could not reach the server. Please check your connection."
      case ParseError(_) => "Error processing the response. Please try again."
      case UnknownError(_) => "An unexpected error occurred. Please try again."
    }

    /** `getTechnicalMessage()`: the text meant for logs. */
    function TechnicalMessage(): string {
      match this
      case NoConnectivity(e) => "No connectivity: " + Render(MessageOf(e))
      case Timeout(e) => "Request timeout: " + Render(MessageOf(e))
      case ClientError(code, body) => "HTTP " + IntToString(code) + ": " + Render(BodyDetail(body))
      case ServerError(code, body) => "HTTP " + IntToString(code) + ": " + Render(BodyDetail(body))
      case UnknownHostError(e) => "Unknown host: " + Render(e.message)
      case ParseError(e) => "Parse error: " + Render(e.message)
      case UnknownError(e) => "Unknown error: " + Render(MessageOf(e))
    }
  }

  /** `errorBody?.technicalMessage ?: errorBody?.message`. */
  function BodyDetail(body: Option<ErrorResponse>): (r: Option<string>)
    ensures body.None? <==> r.None?
    ensures body.Some? && body.value.technicalMessage.Some? ==> r == body.value.technicalMessage
    ensures body.Some? && body.value.technicalMessage.None? ==> r == Some(body.value.message)
  {
    match body
    case None => None
    case Some(b) =>
      Some(b.technicalMessage.OrElse(b.message))
  }

  /** A `Throwable` as the repository sees it: either the app's `NetworkException`
      or any other exception (from the local source, or `IllegalStateException`). */
  datatype Throwable =
    | NetworkException(message: string, technicalMessage: string, networkError: NetworkError)
    | Plain(exception: JvmException)
  {
    /** `Throwable.message`. A `NetworkException` is always built with a non-null message. */
    function Message(): (m: Option<string>)
      ensures NetworkException? ==> m == Some(message)
    {
      match this
      case NetworkException(msg, _, _) => Some(msg)
      case Plain(e) => e.message
    }
  }

  /** The prefix of the technical message that names the error's category. */
  function CategoryPrefix(e: NetworkError): string {
    match e
    case NoConnectivity(_) => "No connectivity: "
    case Timeout(_) => "Request timeout: "
    case ClientError(code, _) => "HTTP " + IntToString(code) + ": "
    case ServerError(code, _) => "HTTP " + IntToString(code) + ": "
    case UnknownHostError(_) => "Unknown host: "
    case ParseError(_) => "Parse error: "
    case UnknownError(_) => "Unknown error: "
  }

  // ---------------------------------------------------------------------------
  // Properties of the two projections

  /** 401, 403 and 404 client errors give fixed user messages, whatever the body. */
  lemma ClientUserMessageFixedCodes(code: int, b1: Option<ErrorResponse>, b2: Option<ErrorResponse>)
    requires code == 401 || code == 403 || code == 404
    ensures ClientError(code, b1).UserMessage() == ClientError(code, b2).UserMessage()
    ensures code == 401 ==> ClientError(code, b1).UserMessage() == "Authentication required. Please log in again."
    ensures code == 403 ==> ClientError(code, b1).UserMessage() == "You don't have permission to access this resource."
    ensures code == 404 ==> ClientError(code, b1).UserMessage() == "The requested resource was not found."
  {
  }

  /** Any other client error shows the body's message, or `"Client error: <code>"` without a body. */
  lemma ClientUserMessageOtherCodes(code: int, body: Option<ErrorResponse>)
    requires code != 401 && code != 403 && code != 404
    ensures body.Some? ==> ClientError(code, body).UserMessage() == body.value.message
    ensures body.None? ==> ClientError(code, body).UserMessage() == "Client error: " + IntToString(code)
  {
  }

  /** Every variant other than `ClientError` has one fixed user message: it depends
      only on the variant, not on its code, body or exception. */
  lemma UserMessageDependsOnlyOnVariant(e1: NetworkError, e2: NetworkError)
    requires !e1.ClientError?
    requires e1.NoConnectivity? ==> e2.NoConnectivity?
    requires e1.Timeout? ==> e2.Timeout?
    requires e1.ServerError? ==> e2.ServerError?
    requires e1.UnknownHostError? ==> e2.UnknownHostError?
    requires e1.ParseError? ==> e2.ParseError?
    requires e1.UnknownError? ==> e2.UnknownError?
    ensures e1.UserMessage() == e2.UserMessage()
  {
  }

  /** The technical message is the category prefix followed by the rendered detail:
      the body's technical message (else its message) for HTTP errors, the
      exception's message otherwise, `"null"` when absent. */
  lemma TechnicalMessageShape(e: NetworkError)
    ensures e.TechnicalMessage() == CategoryPrefix(e) + Render(
      match e
      case ClientError(_, body) => BodyDetail(body)
      case ServerError(_, body) => BodyDetail(body)
      case NoConnectivity(x) => MessageOf(x)
      case Timeout(x) => MessageOf(x)
      case UnknownError(x) => MessageOf(x)
      case UnknownHostError(x) => x.message
      case ParseError(x) => x.message)
  {
  }

  /** Apart from the two HTTP variants, which share the "HTTP <code>: " form, the
      category can be read back from the technical message: no category prefix is
      a prefix of another's technical message. */
  lemma TechnicalMessageIdentifiesCategory(e1: NetworkError, e2: NetworkError)
    requires e1.TechnicalMessage() == e2.TechnicalMessage()
    ensures e1.NoConnectivity? <==> e2.NoConnectivity?
    ensures e1.Timeout? <==> e2.Timeout?
    ensures e1.UnknownHostError? <==> e2.UnknownHostError?
    ensures e1.ParseError? <==> e2.ParseError?
    ensures e1.UnknownError? <==> e2.UnknownError?
    ensures (e1.ClientError? || e1.ServerError?) <==> (e2.ClientError? || e2.ServerError?)
  {
    var t := e1.TechnicalMessage();
    TechnicalMessageShape(e1);
    TechnicalMessageShape(e2);
    var k1 := KindOfTechnical(t);
    assert k1 == Kind(e1) by { KindOfTechnicalCorrect(e1); }
    assert k1 == Kind(e2) by { KindOfTechnicalCorrect(e2); }
  }

  /** The category a technical message names; the two HTTP variants share one. */
  datatype TechnicalCategory =
    | ConnectivityCategory
    | TimeoutCategory
    | HttpCategory
    | HostCategory
    | ParseCategory
    | UnknownCategory

  /** The technical-message category of each variant. */
  function Kind(e: NetworkError): TechnicalCategory {
    match e
    case NoConnectivity(_) => ConnectivityCategory
    case Timeout(_) => TimeoutCategory
    case ClientError(_, _) => HttpCategory
    case ServerError(_, _) => HttpCategory
    case UnknownHostError(_) => HostCategory
    case ParseError(_) => ParseCategory
    case UnknownError(_) => UnknownCategory
  }

  /** Reads the category back from the first characters of a technical message. */
  function KindOfTechnical(t: string): TechnicalCategory {
    if |t| >= 3 && t[..3] == "No " then ConnectivityCategory
    else if |t| >= 3 && t[..3] == "Req" then TimeoutCategory
    else if |t| >= 3 && t[..3] == "HTT" then HttpCategory
    else if |t| >= 9 && t[..9] == "Unknown h" then HostCategory
    else if |t| >= 3 && t[..3] == "Par" then ParseCategory
    else UnknownCategory
  }

  lemma KindOfTechnicalCorrect(e: NetworkError)
    ensures KindOfTechnical(e.TechnicalMessage()) == Kind(e)
  {
    var t := e.TechnicalMessage();
    var p := CategoryPrefix(e);
    TechnicalMessageShape(e);
    assert t[..3] == p[..3];
    match e
    case NoConnectivity(_) =>
      assert t[..3] == "No ";
    case Timeout(_) =>
      assert t[..3] == "Req";
    case ClientError(_, _) =>
      assert t[..3] == "HTT";
    case ServerError(_, _) =>
      assert t[..3] == "HTT";
    case UnknownHostError(_) =>
      assert t[..9] == p[..9] == "Unknown h";
      assert t[..3] == "Unk";
    case ParseError(_) =>
      assert t[..3] == "Par";
    case UnknownError(_) =>
      assert t[..9] == p[..9] == "Unknown e";
      assert t[..3] == "Unk";
      assert t[..9][8] == 'e';
      assert t[..9] != "Unknown h";
  }
}
