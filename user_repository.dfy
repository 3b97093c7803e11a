/** `UserRepositoryImpl`: network first, local as fallback and cache.

    The repository holds the local source (a `UserLocalDataSource` object it
    reads and writes through). The network source's answer to each call is a
    parameter: the `Result` that `UserNetworkDataSource` returned for it. */
module UserRepository {
  import opened Kotlin
  import opened DataModels
  import opened NetworkErrors
  import opened Domain
  import UserMapper
  import opened UserLocalDataSource
  import UserNetworkDataSource
  import NetworkErrorTestUtil

  /** `mapExceptionToResource`: the domain category of any failure. */
  function MapExceptionToResource<T>(exception: Throwable): (r: Resource<T>)
    ensures r.Error? && r.exception == Some(exception)
    ensures exception.Message().Some? ==> r.message == exception.Message().value
  {
    match exception
    case NetworkException(_, _, networkError) =>
      (match networkError
      case NoConnectivity(_) => Error(exception.Message().OrElse("Network error"), NetworkErrorType, Some(exception))
      case Timeout(_) => Error(exception.Message().OrElse("Network error"), NetworkErrorType, Some(exception))
      case UnknownHostError(_) => Error(exception.Message().OrElse("Network error"), NetworkErrorType, Some(exception))
      case ServerError(_, _) => Error(exception.Message().OrElse("Server error"), ServerErrorType, Some(exception))
      case ClientError(code, _) =>
        if code == 404 then Error(exception.Message().OrElse("Resource not found"), NotFound, Some(exception))
        else if code == 401 then Error(exception.Message().OrElse("Authentication required"), Unauthorized, Some(exception))
        else if code == 403 then Error(exception.Message().OrElse("Access forbidden"), Forbidden, Some(exception))
        else if code == 422 then Error(exception.Message().OrElse("Validation error"), ValidationErrorType, Some(exception))
        else Error(exception.Message().OrElse("Client error"), ClientErrorType, Some(exception))
      case _ => Error(exception.Message().OrElse("Unknown error"), UnknownErrorType, Some(exception)))
    case Plain(_) => Error(exception.Message().OrElse("Local error"), LocalErrorType, Some(exception))
  }

  /** The category table of `mapExceptionToResource`, stated independently. */
  function CategoryOf(exception: Throwable): ErrorType {
    if !exception.NetworkException? then LocalErrorType
    else
      var e := exception.networkError;
      if e.NoConnectivity? || e.Timeout? || e.UnknownHostError? then NetworkErrorType
      else if e.ServerError? then ServerErrorType
      else if e.ClientError? && e.code == 404 then NotFound
      else if e.ClientError? && e.code == 401 then Unauthorized
      else if e.ClientError? && e.code == 403 then Forbidden
      else if e.ClientError? && e.code == 422 then ValidationErrorType
      else if e.ClientError? then ClientErrorType
      else UnknownErrorType
  }

  /** The outcome of a write that went to both sources (`saveUser`, `deleteUser`):
      success if either side succeeded, otherwise the network error, else the local
      one, else a fixed unknown error. */
  function WriteOutcome(networkResult: Result<bool, Throwable>, localResult: Result<bool, Throwable>): Resource<bool> {
    if networkResult.IsSuccess() then Success(true)
    else if localResult.IsSuccess() then Success(true)
    else
      match networkResult.ExceptionOrNull()
      case Some(e) => MapExceptionToResource(e)
      case None =>
        match localResult.ExceptionOrNull()
        case Some(e) => MapExceptionToResource(e)
        case None => Error("Unknown error", UnknownErrorType)
  }

  /** `userModels.map { userMapper.mapToDomain(it) }`. */
  function MapAllToDomain(models: seq<UserModel>): (r: seq<User>)
    ensures |r| == |models|
    ensures forall i :: 0 <= i < |models| ==> r[i] == UserMapper.MapToDomain(models[i])
  {
    seq(|models|, i requires 0 <= i < |models| => UserMapper.MapToDomain(models[i]))
  }

  class UserRepositoryImpl {
    const local: UserLocalDataSource

    constructor (local: UserLocalDataSource)
      ensures this.local == local
    {
      this.local := local;
    }

    /** `getUserById`. A network success is written through to the local source and
        returned, whatever the local save answered. A network failure falls back to
        the local entry; when that misses too, the network failure is reported. */
    method GetUserById(userId: int, networkResult: Result<UserModel, Throwable>) returns (r: Resource<Option<User>>)
      requires local.Valid()
      modifies local
      ensures local.Valid()
      ensures networkResult.Ok? ==>
        r == Success(Some(UserMapper.MapToDomain(networkResult.value))) &&
        local.State() == SaveEffect(old(local.State()), networkResult.value)
      ensures networkResult.Err? ==> local.State() == old(local.State())
      ensures networkResult.Err? && userId in old(local.usersMap) ==>
        r == Success(Some(UserMapper.MapToDomain(old(local.usersMap)[userId])))
      ensures networkResult.Err? && userId !in old(local.usersMap) ==>
        r == MapExceptionToResource(networkResult.exception)
    {
      match networkResult
      case Ok(userModel) =>
        var _ := local.SaveUser(userModel);
        r := Success(Some(UserMapper.MapToDomain(userModel)));
      case Err(networkError) =>
        var localResult := local.GetUserById(userId);
        match localResult
        case Ok(userModel) =>
          r := Success(Some(UserMapper.MapToDomain(userModel)));
        case Err(_) =>
          r := MapExceptionToResource(networkError);
    }

    /** `getAllUsers`. A network success saves every returned model locally, in order,
        and returns them mapped; a network failure returns the local list. */
    method GetAllUsers(networkResult: Result<seq<UserModel>, Throwable>) returns (r: Resource<seq<User>>)
      requires local.Valid()
      modifies local
      ensures local.Valid()
      ensures networkResult.Ok? ==>
        r == Success(MapAllToDomain(networkResult.value)) &&
        local.State() == SaveAllEffect(old(local.State()), networkResult.value)
      ensures networkResult.Err? ==>
        local.State() == old(local.State()) &&
        r == Success(MapAllToDomain(Values(old(local.State()))))
    {
      match networkResult
      case Ok(userModels) =>
        var i := 0;
        while i < |userModels|
          invariant 0 <= i <= |userModels|
          invariant local.Valid()
          invariant local.State() == SaveAllEffect(old(local.State()), userModels[..i])
        {
          assert userModels[..i + 1][..i] == userModels[..i];
          var _ := local.SaveUser(userModels[i]);
          i := i + 1;
        }
        assert userModels[..i] == userModels;
        r := Success(MapAllToDomain(userModels));
      case Err(networkError) =>
        var localResult := local.GetAllUsers();
        match localResult
        case Ok(userModels) =>
          r := Success(MapAllToDomain(userModels));
        case Err(_) =>
          r := MapExceptionToResource(networkError);
    }

    /** `saveUser`: sent to the network (its answer is `networkResult`) and always
        saved locally; succeeds if either side did. */
    method SaveUser(user: User, networkResult: Result<bool, Throwable>) returns (r: Resource<bool>)
      requires local.Valid()
      modifies local
      ensures local.Valid()
      ensures local.State() == SaveEffect(old(local.State()), UserMapper.MapToData(user))
      ensures r == WriteOutcome(networkResult, SaveResult(UserMapper.MapToData(user)))
    {
      var userModel := UserMapper.MapToData(user);
      var localResult := local.SaveUser(userModel);
      r := WriteOutcome(networkResult, localResult);
    }

    /** `deleteUser`: sent to the network (its answer is `networkResult`) and always
        deleted locally; succeeds if either side did. */
    method DeleteUser(userId: int, networkResult: Result<bool, Throwable>) returns (r: Resource<bool>)
      requires local.Valid()
      modifies local
      ensures local.Valid()
      ensures local.State() == DeleteEffect(old(local.State()), userId)
      ensures r == WriteOutcome(networkResult, DeleteResult(old(local.usersMap), userId))
    {
      var localResult := local.DeleteUser(userId);
      r := WriteOutcome(networkResult, localResult);
    }
  }

  // ---------------------------------------------------------------------------
  // Properties

  /** `mapExceptionToResource` follows the category table, keeps the exception's
      message, and reports the exception itself as the cause. */
  lemma ClassificationTable<T>(exception: Throwable)
    ensures var r := MapExceptionToResource<T>(exception);
      r.Error? && r.errorType == CategoryOf(exception) && r.exception == Some(exception)
    ensures exception.NetworkException? ==> MapExceptionToResource<T>(exception).message == exception.message
  {
  }

  /** The text `mapExceptionToResource` falls back to for each category when the
      exception has no message. */
  function DefaultMessage(t: ErrorType): string {
    match t
    case NetworkErrorType => "Network error"
    case ServerErrorType => "Server error"
    case NotFound => "Resource not found"
    case Unauthorized => "Authentication required"
    case Forbidden => "Access forbidden"
    case ValidationErrorType => "Validation error"
    case ClientErrorType => "Client error"
    case UnknownErrorType => "Unknown error"
    case LocalErrorType => "Local error"
  }

  /** The message of a classified failure is the exception's own message, or the
      default text of its category (`exception.message ?: "..."`). */
  lemma MessageFallsBackToCategoryDefault<T>(exception: Throwable)
    ensures MapExceptionToResource<T>(exception).message ==
      exception.Message().OrElse(DefaultMessage(CategoryOf(exception)))
  {
    ClassificationTable<T>(exception);
  }

  /** Only local (non-network) failures are LOCAL_ERROR, and only client 422s are
      VALIDATION_ERROR. */
  lemma LocalAndValidationCategories(exception: Throwable)
    ensures CategoryOf(exception) == LocalErrorType <==> exception.Plain?
    ensures CategoryOf(exception) == ValidationErrorType <==>
      exception.NetworkException? && exception.networkError.ClientError? && exception.networkError.code == 422
  {
  }

  /** A write succeeds exactly when one side did; when both fail, the network's error
      is reported and the local and unknown fallbacks are never reached. */
  lemma WriteOutcomeSpec(networkResult: Result<bool, Throwable>, localResult: Result<bool, Throwable>)
    ensures WriteOutcome(networkResult, localResult).Success? <==> networkResult.Ok? || localResult.Ok?
    ensures WriteOutcome(networkResult, localResult).Success? ==> WriteOutcome(networkResult, localResult).data
    ensures networkResult.Err? && localResult.Err? ==>
      WriteOutcome(networkResult, localResult) == MapExceptionToResource(networkResult.exception)
  {
  }

  /** Saving a user with the sentinel id through the repository: the local save
      fails, so the outcome is the network's alone. A network success still reports
      success; a network failure reports the network failure's category, which is
      VALIDATION_ERROR exactly when the server answered 422, and never LOCAL_ERROR
      for a failure from the network source. */
  lemma SaveSentinelThroughRepository(user: User, networkResult: Result<bool, Throwable>)
    requires user.id == UnassignedId
    ensures var r := WriteOutcome(networkResult, SaveResult(UserMapper.MapToData(user)));
      (networkResult.Ok? ==> r == Success(true)) &&
      (networkResult.Err? ==> r == MapExceptionToResource(networkResult.exception))
    ensures var r := WriteOutcome(networkResult, SaveResult(UserMapper.MapToData(user)));
      networkResult.Err? ==>
        r.errorType == CategoryOf(networkResult.exception) &&
        (r.errorType == ValidationErrorType <==>
           networkResult.exception.NetworkException? &&
           networkResult.exception.networkError.ClientError? &&
           networkResult.exception.networkError.code == 422) &&
        (networkResult.exception.NetworkException? ==> r.errorType != LocalErrorType)
  {
    if networkResult.Err? {
      ClassificationTable<bool>(networkResult.exception);
      LocalAndValidationCategories(networkResult.exception);
    }
  }

  /** The fallback list of `getAllUsers` (never an `Error` with the local source
      shown) has one user for every cached entry. */
  lemma FallbackListsEveryCachedUser(st: Store)
    requires WellFormed(st)
    ensures |MapAllToDomain(Values(st))| == |st.users|
  {
    ValuesOnePerKey(st);
  }

  /** After a successful network read of a list, each returned user with an assigned
      id is cached; an id that appears several times holds its last model. */
  lemma GetAllUsersWarmsCache(st: Store, models: seq<UserModel>, i: nat)
    requires i < |models| && models[i].id != UnassignedId
    ensures models[i].id in SaveAllEffect(st, models).users
    ensures (forall j :: i < j < |models| ==> models[j].id != models[i].id) ==>
      SaveAllEffect(st, models).users[models[i].id] == models[i]
  {
    SaveAllCaches(st, models, i);
    if forall j :: i < j < |models| ==> models[j].id != models[i].id {
      LastWithIdIsLast(models, i);
      SaveAllLastWriteWins(st, models, models[i].id);
    }
  }

  lemma {:induction false} LastWithIdIsLast(models: seq<UserModel>, i: nat)
    requires i < |models|
    requires forall j :: i < j < |models| ==> models[j].id != models[i].id
    ensures LastWithId(models, models[i].id) == Some(models[i])
    decreases |models|
  {
    if i < |models| - 1 {
      LastWithIdIsLast(models[..|models| - 1], i);
    }
  }

  /** The fixtures, wrapped by the network source and classified by the repository:
      a validation failure is VALIDATION_ERROR, a timeout, lost connection or unknown
      host NETWORK_ERROR, a parse failure UNKNOWN_ERROR. */
  lemma FixturesThroughClassifier<T>()
    ensures MapExceptionToResource<T>(UserNetworkDataSource.MapNetworkErrorToException(
      NetworkErrorTestUtil.SimulateValidationError())).errorType == ValidationErrorType
    ensures MapExceptionToResource<T>(UserNetworkDataSource.MapNetworkErrorToException(
      NetworkErrorTestUtil.SimulateTimeout())).errorType == NetworkErrorType
    ensures MapExceptionToResource<T>(UserNetworkDataSource.MapNetworkErrorToException(
      NetworkErrorTestUtil.SimulateNoConnectivity())).errorType == NetworkErrorType
    ensures MapExceptionToResource<T>(UserNetworkDataSource.MapNetworkErrorToException(
      NetworkErrorTestUtil.SimulateUnknownHost())).errorType == NetworkErrorType
    ensures MapExceptionToResource<T>(UserNetworkDataSource.MapNetworkErrorToException(
      NetworkErrorTestUtil.SimulateParseError())).errorType == UnknownErrorType
  {
  }

  /** The HTTP fixtures with any code: a client error is NOT_FOUND, UNAUTHORIZED,
      FORBIDDEN or VALIDATION_ERROR for 404, 401, 403 and 422 and CLIENT_ERROR for any
      other code; a server error is SERVER_ERROR. */
  lemma HttpFixturesThroughClassifier<T>(code: int, msg: string)
    ensures var t := MapExceptionToResource<T>(UserNetworkDataSource.MapNetworkErrorToException(
      NetworkErrorTestUtil.SimulateClientError(code, msg))).errorType;
      (code == 404 ==> t == NotFound) && (code == 401 ==> t == Unauthorized) &&
      (code == 403 ==> t == Forbidden) && (code == 422 ==> t == ValidationErrorType) &&
      (code !in {401, 403, 404, 422} ==> t == ClientErrorType)
    ensures MapExceptionToResource<T>(UserNetworkDataSource.MapNetworkErrorToException(
      NetworkErrorTestUtil.SimulateServerError(code, msg))).errorType == ServerErrorType
  {
    ClassificationTable<T>(UserNetworkDataSource.MapNetworkErrorToException(NetworkErrorTestUtil.SimulateClientError(code, msg)));
    ClassificationTable<T>(UserNetworkDataSource.MapNetworkErrorToException(NetworkErrorTestUtil.SimulateServerError(code, msg)));
  }
}
