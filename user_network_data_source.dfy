/** `UserNetworkDataSource`: each operation runs one API call through
    `handleResponse` and turns the `NetworkResult` into a `kotlin.Result`. The API
    service is a parameter: a function from the request to the call's outcome. */
module UserNetworkDataSource {
  import opened Kotlin
  import opened DataModels
  import opened NetworkErrors
  import opened NetworkResults
  import UserNetworkMapper

  /** `mapNetworkErrorToException`. */
  function MapNetworkErrorToException(error: NetworkError): (e: Throwable)
    ensures e.NetworkException?
    ensures e.message == error.UserMessage() && e.technicalMessage == error.TechnicalMessage()
    ensures e.networkError == error
  {
    NetworkException(error.UserMessage(), error.TechnicalMessage(), error)
  }

  /** The exception a `Loading` result becomes. */
  const InProgressException: Throwable := Plain(JvmException(IllegalStateException, Some("Operation in progress")))

  /** The `when` shared by the four operations: success is mapped by `onSuccess`. */
  function ToResult<A, B>(result: NetworkResult<A>, onSuccess: A -> B): (r: Result<B, Throwable>)
    ensures result.Success? <==> r.Ok?
    ensures result.Success? ==> r.value == onSuccess(result.data)
    ensures result.Error? ==> r == Err(MapNetworkErrorToException(result.error))
    ensures result.Loading? ==> r == Err(InProgressException)
  {
    match result
    case Success(data) => Ok(onSuccess(data))
    case Error(error) => Err(MapNetworkErrorToException(error))
    case Loading => Err(InProgressException)
  }

  /** `getUserById`. */
  function GetUserById(api: int -> Call<UserNetworkModel>, userId: int): Result<UserModel, Throwable> {
    ToResult(HandleResponse(api(userId)), UserNetworkMapper.MapToData)
  }

  /** `getAllUsers`. */
  function GetAllUsers(call: Call<seq<UserNetworkModel>>): Result<seq<UserModel>, Throwable> {
    ToResult(HandleResponse(call), UserNetworkMapper.MapToDataList)
  }

  /** `saveUser`: sends the wire form of the model. */
  function SaveUser(api: UserNetworkModel -> Call<UserNetworkModel>, userModel: UserModel): Result<bool, Throwable> {
    var networkModel := UserNetworkMapper.MapToNetwork(userModel);
    ToResult(HandleResponse(api(networkModel)), (_: UserNetworkModel) => true)
  }

  /** `deleteUser`. */
  function DeleteUser(api: int -> Call<()>, userId: int): Result<bool, Throwable> {
    ToResult(HandleResponse(api(userId)), (_: ()) => true)
  }

  // ---------------------------------------------------------------------------
  // Properties

  /** The two reads succeed exactly when the call did, with the mapped wire data. */
  lemma ReadsMapWireData(api: int -> Call<UserNetworkModel>, userId: int, call: Call<seq<UserNetworkModel>>)
    ensures var n := HandleResponse(api(userId));
      n.Success? ==> GetUserById(api, userId) == Ok(UserNetworkMapper.MapToData(n.data))
    ensures var n := HandleResponse(call);
      n.Success? ==> GetAllUsers(call) == Ok(UserNetworkMapper.MapToDataList(n.data))
  {
  }

  /** Every failure of the network source is a `NetworkException` built from the
      classified error: `handleResponse` never yields `Loading`, so the
      `IllegalStateException` branch is never taken. */
  lemma FailuresAreNetworkExceptions(api: int -> Call<UserNetworkModel>, userId: int)
    ensures var r := GetUserById(api, userId);
      var n := HandleResponse(api(userId));
      r.Err? <==> n.Error?
    ensures var r := GetUserById(api, userId);
      var n := HandleResponse(api(userId));
      r.Err? ==> r.exception == NetworkException(n.error.UserMessage(), n.error.TechnicalMessage(), n.error)
  {
  }

  /** `saveUser` sends the model with an empty `username`, and reports `true` on any
      success whatever the response body says. */
  lemma SaveSendsWireForm(api: UserNetworkModel -> Call<UserNetworkModel>, m: UserModel)
    ensures var sent := UserNetworkModel(m.id, m.name, m.email, "");
      var n := HandleResponse(api(sent));
      (n.Success? ==> SaveUser(api, m) == Ok(true)) &&
      (n.Error? ==> SaveUser(api, m) == Err(MapNetworkErrorToException(n.error)))
  {
  }

  /** `deleteUser` reports `true` on any success. */
  lemma DeleteReportsTrue(api: int -> Call<()>, userId: int)
    ensures HandleResponse(api(userId)).Success? ==> DeleteUser(api, userId) == Ok(true)
    ensures HandleResponse(api(userId)).Error? ==> DeleteUser(api, userId).Err?
  {
  }
}
