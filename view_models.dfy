/** `UserListViewModel`: the list screen's state. The use case's result is an
    input of `LoadUsers`; the coroutine it runs in is taken to finish at once. */
module UserListViewModel {
  import opened Domain

  /** `UserListUiState`. */
  datatype UserListUiState =
    | Loading
    | Empty
    | Success(users: seq<User>)
    | Error(message: string, errorType: ErrorType, isRetryable: bool)

  /** `isErrorRetryable` (`UserDetailViewModel` has an identical copy). */
  function IsErrorRetryable(errorType: ErrorType): (r: bool)
    ensures r <==> errorType in {NetworkErrorType, ServerErrorType, LocalErrorType, UnknownErrorType}
  {
    match errorType
    case NetworkErrorType => true
    case ServerErrorType => true
    case ClientErrorType => false
    case ValidationErrorType => false
    case NotFound => false
    case Unauthorized => false
    case Forbidden => false
    case LocalErrorType => true
    case UnknownErrorType => true
  }

  /** The state `loadUsers` settles on for a use-case result. */
  function ListStateFor(result: Resource<seq<User>>): (s: UserListUiState)
    ensures s.Empty? <==> result == Resource.Success([])
    ensures s.Success? <==> result.Success? && result.data != []
    ensures s.Success? ==> s.users == result.data
    ensures s.Error? <==> result.Error?
    ensures s.Error? ==>
      s.message == result.message && s.errorType == result.errorType &&
      s.isRetryable == IsErrorRetryable(result.errorType)
    ensures s.Loading? <==> result.Loading?
  {
    match result
    case Success(users) => if |users| == 0 then UserListUiState.Empty else UserListUiState.Success(users)
    case Error(message, errorType, _) => UserListUiState.Error(message, errorType, IsErrorRetryable(errorType))
    case Loading => UserListUiState.Loading
  }

  class UserListViewModel {
    var uiState: UserListUiState
    /** Every value assigned to the state flow so far, the initial one first. */
    ghost var uiWrites: seq<UserListUiState>

    /** Construction starts in `Loading` and runs `loadUsers` at once. */
    constructor (initialResult: Resource<seq<User>>)
      ensures uiState == ListStateFor(initialResult)
      ensures uiWrites == [UserListUiState.Loading, UserListUiState.Loading, ListStateFor(initialResult)]
    {
      uiState := UserListUiState.Loading;
      uiWrites := [UserListUiState.Loading];
      new;
      LoadUsers(initialResult);
    }

    /** `loadUsers`: `Loading` first, then the state for the result. */
    method LoadUsers(result: Resource<seq<User>>)
      modifies this
      ensures uiState == ListStateFor(result)
      ensures uiWrites == old(uiWrites) + [UserListUiState.Loading, ListStateFor(result)]
    {
      uiState := UserListUiState.Loading;
      uiWrites := uiWrites + [uiState];
      match result {
      case Success(users) =>
        if |users| == 0 {
          uiState := UserListUiState.Empty;
        } else {
          uiState := UserListUiState.Success(users);
        }
      case Error(message, errorType, _) =>
        uiState := UserListUiState.Error(message, errorType, IsErrorRetryable(errorType));
      case Loading =>
        uiState := UserListUiState.Loading;
      }
      uiWrites := uiWrites + [uiState];
    }
  }

  /** Exactly the client-side categories are not worth retrying. */
  lemma RetryableTable(e: ErrorType)
    ensures !IsErrorRetryable(e) <==> e in {ClientErrorType, ValidationErrorType, NotFound, Unauthorized, Forbidden}
  {
  }
}

/** `UserDetailViewModel`: the detail screen's user state and the state of the
    save or delete in progress. The use cases are inputs: a function from the id
    to the use case's result for `loadUser` and `deleteUser` (which call it only
    for a non-null id), and from the user to its result for `saveUser`. */
module UserDetailViewModel {
  import opened Kotlin
  import opened Domain
  import UserListViewModel

  /** `UserDetailUiState`. */
  datatype UserDetailUiState =
    | Loading
    | Success(user: User)
    | Error(message: string, errorType: ErrorType, isRetryable: bool)

  /** `OperationState`. */
  datatype OperationState =
    | Idle
    | Loading
    | Success(message: string)
    | Error(message: string, errorType: ErrorType, isRetryable: bool)

  const SavedMessage: string := "User saved successfully"
  const DeletedMessage: string := "User deleted successfully"

  /** The state `loadUser` settles on for a use-case result. */
  function DetailStateFor(result: Resource<Option<User>>): (s: UserDetailUiState)
    ensures s.Success? <==> result.Success? && result.data.Some?
    ensures s.Success? ==> s.user == result.data.value
    ensures result == Resource.Success(None) ==> s == UserDetailUiState.Error("User not found", NotFound, false)
    ensures result.Error? ==>
      s == UserDetailUiState.Error(result.message, result.errorType, UserListViewModel.IsErrorRetryable(result.errorType))
    ensures s.Loading? <==> result.Loading?
  {
    match result
    case Success(data) =>
      (match data
       case Some(user) => UserDetailUiState.Success(user)
       case None => UserDetailUiState.Error("User not found", NotFound, false))
    case Error(message, errorType, _) =>
      UserDetailUiState.Error(message, errorType, UserListViewModel.IsErrorRetryable(errorType))
    case Loading => UserDetailUiState.Loading
  }

  /** The state `saveUser` or `deleteUser` settles on for a use-case result. */
  function OperationStateFor(result: Resource<bool>, successMessage: string): (s: OperationState)
    ensures s.Success? <==> result.Success?
    ensures s.Success? ==> s.message == successMessage
    ensures result.Error? ==>
      s == OperationState.Error(result.message, result.errorType, UserListViewModel.IsErrorRetryable(result.errorType))
    ensures s.Loading? <==> result.Loading?
    ensures !s.Idle?
  {
    match result
    case Success(_) => OperationState.Success(successMessage)
    case Error(message, errorType, _) =>
      OperationState.Error(message, errorType, UserListViewModel.IsErrorRetryable(errorType))
    case Loading => OperationState.Loading
  }

  class UserDetailViewModel {
    var uiState: UserDetailUiState
    var operationState: OperationState
    /** Every value assigned to each state flow so far, the initial one first. */
    ghost var uiWrites: seq<UserDetailUiState>
    ghost var operationWrites: seq<OperationState>

    constructor ()
      ensures uiState == UserDetailUiState.Loading && operationState == Idle
      ensures uiWrites == [uiState] && operationWrites == [operationState]
    {
      uiState := UserDetailUiState.Loading;
      operationState := Idle;
      uiWrites := [UserDetailUiState.Loading];
      operationWrites := [Idle];
    }

    /** `loadUser`: nothing for a null id; otherwise `Loading`, then the state for
        the use case's result. The operation state is not touched. */
    method LoadUser(userId: Option<int>, getUserById: int -> Resource<Option<User>>)
      modifies this
      ensures userId.None? ==> uiState == old(uiState) && uiWrites == old(uiWrites)
      ensures userId.Some? ==>
        uiState == DetailStateFor(getUserById(userId.value)) &&
        uiWrites == old(uiWrites) + [UserDetailUiState.Loading, uiState]
      ensures operationState == old(operationState) && operationWrites == old(operationWrites)
    {
      if userId.None? {
        return;
      }
      uiState := UserDetailUiState.Loading;
      uiWrites := uiWrites + [uiState];
      var result := getUserById(userId.value);
      match result {
        case Success(data) =>
          if data.Some? {
            uiState := UserDetailUiState.Success(data.value);
          } else {
            uiState := UserDetailUiState.Error("User not found", NotFound, false);
          }
        case Error(message, errorType, _) =>
          uiState := UserDetailUiState.Error(message, errorType, UserListViewModel.IsErrorRetryable(errorType));
        case Loading =>
          uiState := UserDetailUiState.Loading;
      }
      uiWrites := uiWrites + [uiState];
    }

    /** `saveUser`: `Loading`, then the state for the use case's result. The user
        state is not touched. */
    method SaveUser(user: User, saveUser: User -> Resource<bool>)
      modifies this
      ensures operationState == OperationStateFor(saveUser(user), SavedMessage)
      ensures operationWrites == old(operationWrites) + [OperationState.Loading, operationState]
      ensures uiState == old(uiState) && uiWrites == old(uiWrites)
    {
      SetOperation(saveUser(user), SavedMessage);
    }

    /** `deleteUser`: nothing for a null id; otherwise as `saveUser`. */
    method DeleteUser(userId: Option<int>, deleteUser: int -> Resource<bool>)
      modifies this
      ensures userId.None? ==> operationState == old(operationState) && operationWrites == old(operationWrites)
      ensures userId.Some? ==>
        operationState == OperationStateFor(deleteUser(userId.value), DeletedMessage) &&
        operationWrites == old(operationWrites) + [OperationState.Loading, operationState]
      ensures uiState == old(uiState) && uiWrites == old(uiWrites)
    {
      if userId.None? {
        return;
      }
      SetOperation(deleteUser(userId.value), DeletedMessage);
    }

    /** The body shared by `saveUser` and `deleteUser`. */
    method SetOperation(result: Resource<bool>, successMessage: string)
      modifies this
      ensures operationState == OperationStateFor(result, successMessage)
      ensures operationWrites == old(operationWrites) + [OperationState.Loading, operationState]
      ensures uiState == old(uiState) && uiWrites == old(uiWrites)
    {
      operationState := OperationState.Loading;
      operationWrites := operationWrites + [operationState];
      match result {
        case Success(_) =>
          operationState := OperationState.Success(successMessage);
        case Error(message, errorType, _) =>
          operationState := OperationState.Error(message, errorType, UserListViewModel.IsErrorRetryable(errorType));
        case Loading =>
          operationState := OperationState.Loading;
      }
      operationWrites := operationWrites + [operationState];
    }

    /** `resetOperationState`. */
    method ResetOperationState()
      modifies this
      ensures operationState == Idle && operationWrites == old(operationWrites) + [Idle]
      ensures uiState == old(uiState) && uiWrites == old(uiWrites)
    {
      operationState := Idle;
      operationWrites := operationWrites + [Idle];
    }
  }

  /** A detail screen error is final (not retryable) exactly for a missing user or
      a client-side category. */
  lemma DetailErrorNotRetryable(result: Resource<Option<User>>)
    ensures var s := DetailStateFor(result);
      (s.Error? && !s.isRetryable) <==>
        result == Resource.Success(None) ||
        (result.Error? && result.errorType in {ClientErrorType, ValidationErrorType, NotFound, Unauthorized, Forbidden})
  {
    if result.Error? {
      UserListViewModel.RetryableTable(result.errorType);
    }
  }
}
