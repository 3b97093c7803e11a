/** The domain layer's types: the `User` entity and the `Resource` outcome that
    every repository call returns, with its nine error categories. */
module Domain {
  import opened Kotlin
  import opened NetworkErrors

  /** `User`: the domain entity. */
  datatype User = User(id: int, name: string, email: string)

  /** `Resource.ErrorType`, in declaration order: NETWORK_ERROR, SERVER_ERROR,
      CLIENT_ERROR, VALIDATION_ERROR, NOT_FOUND, UNAUTHORIZED, FORBIDDEN,
      LOCAL_ERROR, UNKNOWN_ERROR. */
  datatype ErrorType =
    | NetworkErrorType
    | ServerErrorType
    | ClientErrorType
    | ValidationErrorType
    | NotFound
    | Unauthorized
    | Forbidden
    | LocalErrorType
    | UnknownErrorType

  /** The nine categories. */
  const AllErrorTypes: set<ErrorType> := {
    NetworkErrorType, ServerErrorType, ClientErrorType, ValidationErrorType, NotFound,
    Unauthorized, Forbidden, LocalErrorType, UnknownErrorType }

  /** `Resource<T>`. `Error` carries a message, its category and an optional cause. */
  datatype Resource<+T> =
    | Success(data: T)
    | Error(message: string, errorType: ErrorType, exception: Option<Throwable> := None)
    | Loading
  {
    predicate IsSuccess() { Success? }
    predicate IsError() { Error? }
    predicate IsLoading() { Loading? }

    /** `getDataOrNull()`. */
    function GetDataOrNull(): Option<T> {
      match this
      case Success(d) => Some(d)
      case _ => None
    }
  }

  /** `getDataOrNull()` on a `Resource<T?>`: Kotlin's `T?` for a nullable `T` is `T`
      again, so a `Success(null)` and a non-success both give null. */
  function NullableDataOrNull<T>(r: Resource<Option<T>>): Option<T> {
    match r.GetDataOrNull()
    case Some(d) => d
    case None => None
  }

  /** Exactly one of the three state tests holds. */
  lemma ExactlyOneState<T>(r: Resource<T>)
    ensures r.IsSuccess() || r.IsError() || r.IsLoading()
    ensures !(r.IsSuccess() && r.IsError()) && !(r.IsSuccess() && r.IsLoading()) && !(r.IsError() && r.IsLoading())
  {
  }

  /** `getDataOrNull` gives the payload exactly for `Success`. */
  lemma DataOrNullSpec<T>(r: Resource<T>)
    ensures r.GetDataOrNull().Some? <==> r.IsSuccess()
    ensures r.IsSuccess() ==> r.GetDataOrNull() == Some(r.data)
  {
  }

  /** For a nullable payload, a non-null result still means success, but not conversely:
      `Success(null)` is a success whose data is null. */
  lemma NullableDataOrNullSpec<T>(r: Resource<Option<T>>)
    ensures NullableDataOrNull(r).Some? ==> r.IsSuccess() && r.data == NullableDataOrNull(r)
    ensures r == Success(None) ==> r.IsSuccess() && NullableDataOrNull(r).None?
  {
  }

  /** There are exactly nine categories, and an `Error` built without a cause has none. */
  lemma ErrorShape(message: string, t: ErrorType)
    ensures |AllErrorTypes| == 9 && t in AllErrorTypes
    ensures Resource<()>.Error(message, t).exception == None
  {
  }
}
