/** `NetworkErrorTestUtil`: ready-made `NetworkError` values for each failure the
    app can meet. */
module NetworkErrorTestUtil {
  import opened Kotlin
  import opened NetworkErrors

  function SimulateNoConnectivity(): NetworkError {
    NoConnectivity(Some(JvmException(OtherIOException, Some("No internet connection"))))
  }

  function SimulateTimeout(): NetworkError {
    Timeout(Some(JvmException(SocketTimeoutException, Some("Connection timed out"))))
  }

  function SimulateUnknownHost(): NetworkError {
    UnknownHostError(JvmException(UnknownHostException, Some("Unknown host: api.example.com")))
  }

  function SimulateClientError(code: int := 400, errorMessage: string := "Bad Request"): NetworkError {
    ClientError(code, Some(ErrorResponse(
      message := errorMessage,
      technicalMessage := Some("Client error occurred with status code: " + IntToString(code)),
      errorCode := Some("E" + IntToString(code)))))
  }

  function SimulateServerError(code: int := 500, errorMessage: string := "Internal Server Error"): NetworkError {
    ServerError(code, Some(ErrorResponse(
      message := errorMessage,
      technicalMessage := Some("Server error occurred with status code: " + IntToString(code)),
      errorCode := Some("E" + IntToString(code)))))
  }

  /** The default field errors of `simulateValidationError`. */
  const DefaultFieldErrors: map<string, string> := map[
    "email" := "Invalid email format",
    "password" := "Password must be at least 8 characters"]

  function SimulateValidationError(fieldErrors: map<string, string> := DefaultFieldErrors): NetworkError {
    ClientError(422, Some(ErrorResponse(
      message := "Validation failed",
      technicalMessage := Some("One or more fields failed validation"),
      errorCode := Some("E422"),
      fieldErrors := Some(fieldErrors))))
  }

  function SimulateParseError(): NetworkError {
    ParseError(JvmException(OtherException, Some("Failed to parse response")))
  }

  /** Each fixture is the variant its name promises, and the HTTP fixtures carry the
      given code, message and field errors, with the error code "E<code>". */
  lemma FixtureShapes(code: int, msg: string, fe: map<string, string>)
    ensures SimulateNoConnectivity().NoConnectivity? && SimulateTimeout().Timeout?
    ensures SimulateUnknownHost().UnknownHostError? && SimulateParseError().ParseError?
    ensures var c := SimulateClientError(code, msg);
      c.ClientError? && c.code == code && c.errorBody.Some? && c.errorBody.value.message == msg &&
      c.errorBody.value.errorCode == Some("E" + IntToString(code))
    ensures SimulateClientError().code == 400 && SimulateServerError().code == 500
    ensures var s := SimulateServerError(code, msg);
      s.ServerError? && s.code == code && s.errorBody.Some? && s.errorBody.value.message == msg &&
      s.errorBody.value.errorCode == Some("E" + IntToString(code))
    ensures var v := SimulateValidationError(fe);
      v.ClientError? && v.code == 422 && v.errorBody.Some? &&
      v.errorBody.value.message == "Validation failed" &&
      v.errorBody.value.errorCode == Some("E422") && v.errorBody.value.fieldErrors == Some(fe)
  {
  }

  /** The "E<code>" error code of a simulated client error identifies its status code. */
  lemma ClientErrorCodeIdentifiesStatus(c1: int, c2: int, m1: string, m2: string)
    requires SimulateClientError(c1, m1).errorBody.value.errorCode == SimulateClientError(c2, m2).errorBody.value.errorCode
    ensures c1 == c2
  {
    var s1, s2 := "E" + IntToString(c1), "E" + IntToString(c2);
    assert s1[1..] == IntToString(c1) && s2[1..] == IntToString(c2);
    IntToStringInjective(c1, c2);
  }
}
