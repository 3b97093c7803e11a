# Android clean-architecture users app: data access and error classification

This project models the core of a small Android app written in Kotlin. The app
lists users and shows their details. The core has these parts:

- **Network errors.** A seven-variant `NetworkError` sum has a user-facing message and
  a technical message.
- **Response classification.** `NetworkResult.handleResponse` turns an HTTP response or
  a thrown exception into `Success`, `Error(NetworkError)` or `Loading`. Its helper
  `parseErrorBody` reads an error body.
- **Domain outcome.** `Resource` is the outcome type of the domain layer. Its failures
  fall into nine `ErrorType` categories.
- **Mappers.** They copy users between three record types: the wire record
  (`UserNetworkModel`), the storage record (`UserModel`) and the domain entity (`User`).
- **Local source.** An in-memory table of users keyed by id, updated in place.
- **Network source.** It adapts `NetworkResult` to `kotlin.Result` and wraps each error
  in a `NetworkException`.
- **Repository.** Reads go to the network first and fall back to the local source. A
  network success is written through to the cache. Writes go to both sources and
  succeed if either side does. Every failure is mapped to a `Resource.Error`.
- **Test fixtures.** `NetworkErrorTestUtil` builds ready-made `NetworkError` values.
- **View models.** Two of them turn repository results into screen state.

There is one Dafny module per source file or group of related files (paths under
`app/src/main/java/com/example/androidcleanarchitecture/`):

| Dafny module | files |
|---|---|
| `Kotlin` | no source file: the runtime pieces the core uses (nullable values, `kotlin.Result`, substring search, `Int.toString`, JVM exception classes) |
| `DataModels` | `data/model/UserModel.kt`, `data/model/UserNetworkModel.kt` |
| `NetworkErrors` | `data/network/ErrorResponse.kt`, `data/network/NetworkError.kt`, `data/network/NetworkException.kt` |
| `NetworkResults` | `data/network/NetworkResult.kt` |
| `Domain` | `domain/entity/User.kt`, `domain/util/Resource.kt` |
| `UserMapper` | `data/mapper/UserMapper.kt` |
| `UserNetworkMapper` | `data/mapper/UserNetworkMapper.kt` |
| `NetworkErrorTestUtil` | `data/network/NetworkErrorTestUtil.kt` |
| `UserLocalDataSource` | `data/datasource/UserLocalDataSource.kt` (a class) |
| `UserNetworkDataSource` | `data/datasource/UserNetworkDataSource.kt` (functions) |
| `UserRepository` | `data/repository/UserRepositoryImpl.kt` (a class holding the local source) |
| `UserListViewModel` | `presentation/viewmodel/UserListViewModel.kt` (a class) |
| `UserDetailViewModel` | `presentation/viewmodel/UserDetailViewModel.kt` (a class) |

The parts with mutable state are Dafny classes:

- **The local table.** The class `UserLocalDataSource.UserLocalDataSource` has fields
  `usersMap` and `keyOrder`. A Kotlin `mutableMapOf` keeps its keys in insertion order,
  and `keyOrder` records that order.
- **The repository.** The class `UserRepository.UserRepositoryImpl` writes through to a
  `UserLocalDataSource` object. The network source's answer to each call is an input:
  the `Result` the network source returned.
- **The two view models.** They keep their state-flow values in fields. Ghost write
  histories record every value assigned to those fields.

Each method is specified against pure functions of the state, such as `SaveEffect`,
`DeleteEffect`, `SaveAllEffect`, `ListStateFor`, `DetailStateFor` and
`OperationStateFor`. The lemmas state the promised properties about those functions.

**Saving the sentinel id through the repository.** The local save of id -1 fails
with a plain `Exception`. `saveUser` therefore returns `Success(true)` when the
network save succeeded. The failing local save itself never shows up in the result:
the category is the network failure's, so it is `VALIDATION_ERROR` only when the
server answered 422. `UserRepository.SaveSentinelThroughRepository` states this.

## Model

All source paths are relative to the repository root, under
`app/src/main/java/com/example/androidcleanarchitecture/`, written out in full below.

| member | source | states |
|---|---|---|
| Kotlin.Result.ExceptionOrNull | app/src/main/java/com/example/androidcleanarchitecture/data/repository/UserRepositoryImpl.kt:109-110 | `exceptionOrNull()` is non-null exactly for a failure, and is then the failure's exception |
| Kotlin.IndexOfFrom | app/src/main/java/com/example/androidcleanarchitecture/data/network/NetworkResult.kt:77-78 | the index found is the first occurrence at or after the start; none means no occurrence at all |
| Kotlin.ContainsIff | app/src/main/java/com/example/androidcleanarchitecture/data/network/NetworkResult.kt:77 | `contains` holds exactly when the text occurs somewhere |
| Kotlin.SubstringBeforeCharFree | app/src/main/java/com/example/androidcleanarchitecture/data/network/NetworkResult.kt:78 | the text before the first `c` holds no `c` |
| Kotlin.FirstCharMismatch | app/src/main/java/com/example/androidcleanarchitecture/data/network/NetworkResult.kt:78 | a delimiter cannot occur where its first character does not |
| Kotlin.SubstringAfterAt | app/src/main/java/com/example/androidcleanarchitecture/data/network/NetworkResult.kt:78 | when the first occurrence is at `i`, `substringAfter` is what follows it |
| Kotlin.SubstringBeforeChar | app/src/main/java/com/example/androidcleanarchitecture/data/network/NetworkResult.kt:78 | `substringBefore(c)` of `m + c + rest` is `m` when `m` holds no `c` |
| Kotlin.NatToString | app/src/main/java/com/example/androidcleanarchitecture/data/network/NetworkError.kt:37 | the rendering of a number in a string template is a non-empty string of digits |
| Kotlin.NatToStringRoundTrip | app/src/main/java/com/example/androidcleanarchitecture/data/network/NetworkError.kt:54-55 | the digits read back as the number |
| Kotlin.IntToStringRoundTrip | app/src/main/java/com/example/androidcleanarchitecture/data/network/NetworkErrorTestUtil.kt:46-47 | `"$code"` (minus sign included) reads back as `code` |
| Kotlin.IntToStringInjective | app/src/main/java/com/example/androidcleanarchitecture/data/datasource/UserLocalDataSource.kt:28 | distinct ids render as distinct texts |
| Domain.ExactlyOneState | app/src/main/java/com/example/androidcleanarchitecture/domain/util/Resource.kt:36-49 | exactly one of `isSuccess`, `isError`, `isLoading` holds |
| Domain.DataOrNullSpec | app/src/main/java/com/example/androidcleanarchitecture/domain/util/Resource.kt:54-57 | `getDataOrNull` is the payload exactly for `Success`, null for `Error` and `Loading` |
| Domain.NullableDataOrNullSpec | app/src/main/java/com/example/androidcleanarchitecture/domain/util/Resource.kt:54-57 | for a nullable payload, non-null data implies success, and `Success(null)` is a success with null data |
| Domain.ErrorShape | app/src/main/java/com/example/androidcleanarchitecture/domain/util/Resource.kt:11-31 | there are exactly nine categories; an `Error` built without a cause has none |
| NetworkErrors.BodyDetail | app/src/main/java/com/example/androidcleanarchitecture/data/network/NetworkError.kt:54-55 | `errorBody?.technicalMessage ?: errorBody?.message`: null only without a body, the technical message when present, else the message |
| NetworkErrors.Throwable.Message | app/src/main/java/com/example/androidcleanarchitecture/data/network/NetworkException.kt:7-11 | a `NetworkException`'s message is the non-null message it was built with |
| NetworkErrors.ClientUserMessageFixedCodes | app/src/main/java/com/example/androidcleanarchitecture/data/network/NetworkError.kt:33-36 | client errors 401, 403 and 404 give their fixed user messages whatever the body |
| NetworkErrors.ClientUserMessageOtherCodes | app/src/main/java/com/example/androidcleanarchitecture/data/network/NetworkError.kt:37 | any other client error shows the body's message, or `"Client error: <code>"` without a body |
| NetworkErrors.UserMessageDependsOnlyOnVariant | app/src/main/java/com/example/androidcleanarchitecture/data/network/NetworkError.kt:29-43 | every non-client variant has one user message that does not depend on its code, body or exception |
| NetworkErrors.TechnicalMessageShape | app/src/main/java/com/example/androidcleanarchitecture/data/network/NetworkError.kt:50-60 | the technical message is the category prefix (`"HTTP <code>: "`, `"No connectivity: "`, ...) followed by the body detail or the exception message, rendered `"null"` when absent |
| NetworkErrors.TechnicalMessageIdentifiesCategory | app/src/main/java/com/example/androidcleanarchitecture/data/network/NetworkError.kt:50-60 | two errors with the same technical message have the same category (the two HTTP variants share one) |
| NetworkErrors.KindOfTechnicalCorrect | app/src/main/java/com/example/androidcleanarchitecture/data/network/NetworkError.kt:50-60 | reading the first characters of a technical message gives back its category (`TechnicalCategory`: connectivity, timeout, HTTP, host, parse or unknown) |
| NetworkResults.HandleResponse | app/src/main/java/com/example/androidcleanarchitecture/data/network/NetworkResult.kt:23-55 | `handleResponse` never returns `Loading` |
| NetworkResults.ReadErrorBody | app/src/main/java/com/example/androidcleanarchitecture/data/network/NetworkResult.kt:37-43 | the error body is the parsed text when there is one, and null when it is missing or cannot be read |
| NetworkResults.ParseErrorBody | app/src/main/java/com/example/androidcleanarchitecture/data/network/NetworkResult.kt:73-87 | the parsed body carries only a message: no technical message, error code or field errors |
| NetworkResults.SuccessfulResponse | app/src/main/java/com/example/androidcleanarchitecture/data/network/NetworkResult.kt:28-34 | a 2xx response with a body is `Success(body)`; without one it is a `ParseError` |
| NetworkResults.UnsuccessfulResponse | app/src/main/java/com/example/androidcleanarchitecture/data/network/NetworkResult.kt:35-51 | a non-2xx response is a `ClientError` exactly for 4xx and a `ServerError` exactly for 5xx, each with the response's code and parsed body; it is `UnknownError` exactly outside 400..599 |
| NetworkResults.ErrorBodyDoesNotDecideCategory | app/src/main/java/com/example/androidcleanarchitecture/data/network/NetworkResult.kt:37-50 | responses that differ only in their error body land in the same category with the same code |
| NetworkResults.ThrownException | app/src/main/java/com/example/androidcleanarchitecture/data/network/NetworkResult.kt:52-66 | a thrown exception is classified in order: timeout, then unknown host, then any other `IOException` as no connectivity, else unknown; each keeps the exception |
| NetworkResults.IOExceptionsAreConnectionErrors | app/src/main/java/com/example/androidcleanarchitecture/data/network/NetworkResult.kt:60-66 | an exception is classified as a connection problem exactly when it is an `IOException` |
| NetworkResults.ParseErrorBodyWithoutKey | app/src/main/java/com/example/androidcleanarchitecture/data/network/NetworkResult.kt:77-81 | a body without `message` gives the message "Unknown error" |
| NetworkResults.ParseErrorBodyWithKey | app/src/main/java/com/example/androidcleanarchitecture/data/network/NetworkResult.kt:77-78 | a body with `message` gives the text after the first `message":"` (all of it when that is absent), cut at the next quote, so the message never holds a quote |
| NetworkResults.ParseJsonMessage | app/src/main/java/com/example/androidcleanarchitecture/data/network/NetworkResult.kt:77-83 | the body `{"message":"M"...` gives exactly `M` for any `M` without a quote |
| UserMapper.FieldsCopied | app/src/main/java/com/example/androidcleanarchitecture/data/mapper/UserMapper.kt:16-35 | both maps copy id, name and email unchanged, the -1 sentinel included |
| UserMapper.RoundTrips | app/src/main/java/com/example/androidcleanarchitecture/data/mapper/UserMapper.kt:16-35 | `mapToData(mapToDomain(m)) == m` and `mapToDomain(mapToData(u)) == u` |
| UserNetworkMapper.MapToDataList | app/src/main/java/com/example/androidcleanarchitecture/data/mapper/UserNetworkMapper.kt:44-46 | the list keeps its length and order, and element i is `mapToData` of input element i |
| UserNetworkMapper.DataRoundTrip | app/src/main/java/com/example/androidcleanarchitecture/data/mapper/UserNetworkMapper.kt:17-37 | `mapToData(mapToNetwork(m)) == m`, and the wire form's username is empty |
| UserNetworkMapper.NetworkRoundTrip | app/src/main/java/com/example/androidcleanarchitecture/data/mapper/UserNetworkMapper.kt:17-37 | `mapToNetwork(mapToData(n)) == n` exactly when `n.username` is empty |
| NetworkErrorTestUtil.FixtureShapes | app/src/main/java/com/example/androidcleanarchitecture/data/network/NetworkErrorTestUtil.kt:19-88 | each fixture is the variant its name says; the HTTP fixtures carry the given code (default 400 or 500), message and field errors, with error code `"E<code>"` |
| NetworkErrorTestUtil.ClientErrorCodeIdentifiesStatus | app/src/main/java/com/example/androidcleanarchitecture/data/network/NetworkErrorTestUtil.kt:40-50 | the `"E<code>"` error code of a simulated client error determines its status code |
| UserLocalDataSource.ValuesInOrder | app/src/main/java/com/example/androidcleanarchitecture/data/datasource/UserLocalDataSource.kt:36-38 | the value list has one entry per position of the key order, each the entry stored under that key |
| UserLocalDataSource.RemoveKey | app/src/main/java/com/example/androidcleanarchitecture/data/datasource/UserLocalDataSource.kt:61 | removing a key takes exactly that key out of the key order |
| UserLocalDataSource.UserLocalDataSource.constructor | app/src/main/java/com/example/androidcleanarchitecture/data/datasource/UserLocalDataSource.kt:15 | the table starts empty and well formed |
| UserLocalDataSource.UserLocalDataSource.GetUserById | app/src/main/java/com/example/androidcleanarchitecture/data/datasource/UserLocalDataSource.kt:23-30 | the stored entry, or a failure "User not found with ID: <id>"; the table is not modified |
| UserLocalDataSource.UserLocalDataSource.GetAllUsers | app/src/main/java/com/example/androidcleanarchitecture/data/datasource/UserLocalDataSource.kt:36-38 | always succeeds with the stored values in insertion order; the table is not modified |
| UserLocalDataSource.UserLocalDataSource.SaveUser | app/src/main/java/com/example/androidcleanarchitecture/data/datasource/UserLocalDataSource.kt:45-52 | succeeds and stores the model exactly when its id is not -1, otherwise fails and changes nothing; the key order stays well formed |
| UserLocalDataSource.UserLocalDataSource.DeleteUser | app/src/main/java/com/example/androidcleanarchitecture/data/datasource/UserLocalDataSource.kt:59-66 | removes a present id and succeeds, fails with not-found otherwise; the key order stays well formed |
| UserLocalDataSource.OrderKeysStored | app/src/main/java/com/example/androidcleanarchitecture/data/datasource/UserLocalDataSource.kt:15 | every key in the order has an entry |
| UserLocalDataSource.SaveEffectWellFormed | app/src/main/java/com/example/androidcleanarchitecture/data/datasource/UserLocalDataSource.kt:47 | a save keeps every key listed once in the key order |
| UserLocalDataSource.RemoveKeyDistinct | app/src/main/java/com/example/androidcleanarchitecture/data/datasource/UserLocalDataSource.kt:61 | removing a key keeps the key order free of repeats |
| UserLocalDataSource.DeleteEffectWellFormed | app/src/main/java/com/example/androidcleanarchitecture/data/datasource/UserLocalDataSource.kt:60-61 | a delete keeps every key listed once in the key order |
| UserLocalDataSource.SaveThenGet | app/src/main/java/com/example/androidcleanarchitecture/data/datasource/UserLocalDataSource.kt:23-26 | after saving a model with an assigned id, reading its id gives exactly that model |
| UserLocalDataSource.SaveSentinel | app/src/main/java/com/example/androidcleanarchitecture/data/datasource/UserLocalDataSource.kt:46-50 | saving id -1 fails with "Invalid user ID: ID cannot be empty" and leaves the table as it was |
| UserLocalDataSource.SaveFrame | app/src/main/java/com/example/androidcleanarchitecture/data/datasource/UserLocalDataSource.kt:47 | a save overwrites only its own id: every other key keeps its entry, an existing key keeps its place in the order, and a new key is appended at the end |
| UserLocalDataSource.GetAbsent | app/src/main/java/com/example/androidcleanarchitecture/data/datasource/UserLocalDataSource.kt:24-28 | an absent id fails with "User not found with ID: <id>" |
| UserLocalDataSource.DeleteSpec | app/src/main/java/com/example/androidcleanarchitecture/data/datasource/UserLocalDataSource.kt:59-65 | deleting a present id removes exactly that key and succeeds; an absent id fails with not-found and changes nothing |
| UserLocalDataSource.DistinctCardinality | app/src/main/java/com/example/androidcleanarchitecture/data/datasource/UserLocalDataSource.kt:37 | a key order without repeats has as many keys as positions |
| UserLocalDataSource.ValuesOnePerKey | app/src/main/java/com/example/androidcleanarchitecture/data/datasource/UserLocalDataSource.kt:36-38 | `getAllUsers` lists exactly the stored values, one per key |
| UserLocalDataSource.SaveAllLastWriteWins | app/src/main/java/com/example/androidcleanarchitecture/data/repository/UserRepositoryImpl.kt:68-70 | saving a list in order leaves each assigned id holding its last model, and every other id as it was |
| UserLocalDataSource.SaveAllWellFormed | app/src/main/java/com/example/androidcleanarchitecture/data/repository/UserRepositoryImpl.kt:68-70 | saving a list keeps the table well formed |
| UserLocalDataSource.SaveAllCaches | app/src/main/java/com/example/androidcleanarchitecture/data/repository/UserRepositoryImpl.kt:68-70 | after saving a list, every listed model with an assigned id is in the table |
| UserLocalDataSource.LastWithIdFound | app/src/main/java/com/example/androidcleanarchitecture/data/repository/UserRepositoryImpl.kt:68-70 | an id that occurs in the list has a last model |
| UserNetworkDataSource.MapNetworkErrorToException | app/src/main/java/com/example/androidcleanarchitecture/data/datasource/UserNetworkDataSource.kt:75-81 | the exception is a `NetworkException` whose message is the user message, whose technical message is the technical message, and whose error is the original |
| UserNetworkDataSource.ToResult | app/src/main/java/com/example/androidcleanarchitecture/data/datasource/UserNetworkDataSource.kt:26-30 | success exactly for `Success`, with the mapped data; `Error` becomes the wrapped `NetworkException`; `Loading` becomes `IllegalStateException("Operation in progress")` |
| UserNetworkDataSource.ReadsMapWireData | app/src/main/java/com/example/androidcleanarchitecture/data/datasource/UserNetworkDataSource.kt:25-43 | the two reads return `mapToData` / `mapToDataList` of the wire data |
| UserNetworkDataSource.FailuresAreNetworkExceptions | app/src/main/java/com/example/androidcleanarchitecture/data/datasource/UserNetworkDataSource.kt:26-29 | a read fails exactly when the response was an `Error`, always with the `NetworkException` built from it, never with the `IllegalStateException` |
| UserNetworkDataSource.SaveSendsWireForm | app/src/main/java/com/example/androidcleanarchitecture/data/datasource/UserNetworkDataSource.kt:50-57 | `saveUser` sends the model with an empty username and reports true on any success and the wrapped error on failure |
| UserNetworkDataSource.DeleteReportsTrue | app/src/main/java/com/example/androidcleanarchitecture/data/datasource/UserNetworkDataSource.kt:64-70 | `deleteUser` reports true on any success and fails on any error |
| UserRepository.MapExceptionToResource | app/src/main/java/com/example/androidcleanarchitecture/data/repository/UserRepositoryImpl.kt:143-171 | every exception becomes an `Error` that carries it as its cause and keeps its message |
| UserRepository.MapAllToDomain | app/src/main/java/com/example/androidcleanarchitecture/data/repository/UserRepositoryImpl.kt:71 | the mapped list keeps length and order, element by element |
| UserRepository.UserRepositoryImpl.constructor | app/src/main/java/com/example/androidcleanarchitecture/data/repository/UserRepositoryImpl.kt:17-21 | the repository holds the given local source |
| UserRepository.UserRepositoryImpl.GetUserById | app/src/main/java/com/example/androidcleanarchitecture/data/repository/UserRepositoryImpl.kt:29-54 | a network success is saved locally and returned whatever the local save says; on a network failure a local hit is returned unchanged, and a local miss reports the network failure |
| UserRepository.UserRepositoryImpl.GetAllUsers | app/src/main/java/com/example/androidcleanarchitecture/data/repository/UserRepositoryImpl.kt:61-88 | a network success saves every model locally, in order, and returns the mapped list; a network failure returns the local list and changes nothing |
| UserRepository.UserRepositoryImpl.SaveUser | app/src/main/java/com/example/androidcleanarchitecture/data/repository/UserRepositoryImpl.kt:95-114 | the local save always happens; the outcome combines the network and local results |
| UserRepository.UserRepositoryImpl.DeleteUser | app/src/main/java/com/example/androidcleanarchitecture/data/repository/UserRepositoryImpl.kt:121-138 | the local delete always happens; the outcome combines the network and local results |
| UserRepository.ClassificationTable | app/src/main/java/com/example/androidcleanarchitecture/data/repository/UserRepositoryImpl.kt:143-170 | the category follows the table: connectivity/timeout/host give NETWORK_ERROR, server SERVER_ERROR, client 404/401/403/422 NOT_FOUND/UNAUTHORIZED/FORBIDDEN/VALIDATION_ERROR, other client CLIENT_ERROR, parse/unknown UNKNOWN_ERROR, non-network LOCAL_ERROR |
| UserRepository.LocalAndValidationCategories | app/src/main/java/com/example/androidcleanarchitecture/data/repository/UserRepositoryImpl.kt:161-169 | LOCAL_ERROR exactly for non-network exceptions, VALIDATION_ERROR exactly for client 422 |
| UserRepository.WriteOutcomeSpec | app/src/main/java/com/example/androidcleanarchitecture/data/repository/UserRepositoryImpl.kt:104-113 | a write succeeds with true exactly when either side succeeded; when both fail the network failure is reported |
| UserRepository.SaveSentinelThroughRepository | app/src/main/java/com/example/androidcleanarchitecture/data/repository/UserRepositoryImpl.kt:95-113 | saving id -1 reports success when the network succeeded; when it failed, the network failure's category, which is VALIDATION_ERROR exactly for a 422 and never LOCAL_ERROR for a network exception |
| UserRepository.FallbackListsEveryCachedUser | app/src/main/java/com/example/androidcleanarchitecture/data/repository/UserRepositoryImpl.kt:73-80 | the fallback list has one user per cached entry |
| UserRepository.GetAllUsersWarmsCache | app/src/main/java/com/example/androidcleanarchitecture/data/repository/UserRepositoryImpl.kt:66-71 | after a network list, every returned user with an assigned id is cached, holding its last occurrence |
| UserRepository.LastWithIdIsLast | app/src/main/java/com/example/androidcleanarchitecture/data/repository/UserRepositoryImpl.kt:68-70 | a model whose id does not recur later is the last one saved under that id |
| UserRepository.FixturesThroughClassifier | app/src/main/java/com/example/androidcleanarchitecture/data/network/NetworkErrorTestUtil.kt:19-35 | through the network source and the repository, the validation fixture is VALIDATION_ERROR, the timeout, connectivity and host fixtures NETWORK_ERROR, the parse fixture UNKNOWN_ERROR |
| UserRepository.HttpFixturesThroughClassifier | app/src/main/java/com/example/androidcleanarchitecture/data/network/NetworkErrorTestUtil.kt:40-65 | a simulated client error is NOT_FOUND, UNAUTHORIZED, FORBIDDEN or VALIDATION_ERROR for 404, 401, 403 and 422 and CLIENT_ERROR for any other code; a simulated server error is SERVER_ERROR for every code |
| UserListViewModel.IsErrorRetryable | app/src/main/java/com/example/androidcleanarchitecture/presentation/viewmodel/UserListViewModel.kt:60-72 | retryable exactly for NETWORK_ERROR, SERVER_ERROR, LOCAL_ERROR and UNKNOWN_ERROR |
| UserListViewModel.ListStateFor | app/src/main/java/com/example/androidcleanarchitecture/presentation/viewmodel/UserListViewModel.kt:35-53 | `Empty` exactly for an empty success, `Success` with the same list exactly for a non-empty one, `Error` with the same message and category and the table's retryability exactly for an error, `Loading` exactly for loading |
| UserListViewModel.UserListViewModel.constructor | app/src/main/java/com/example/androidcleanarchitecture/presentation/viewmodel/UserListViewModel.kt:22-27 | starts at `Loading` and runs `loadUsers` at once |
| UserListViewModel.UserListViewModel.LoadUsers | app/src/main/java/com/example/androidcleanarchitecture/presentation/viewmodel/UserListViewModel.kt:32-55 | writes `Loading` first, then the state for the result |
| UserListViewModel.RetryableTable | app/src/main/java/com/example/androidcleanarchitecture/presentation/viewmodel/UserListViewModel.kt:60-72 | not retryable exactly for the five client-side categories |
| UserDetailViewModel.DetailStateFor | app/src/main/java/com/example/androidcleanarchitecture/presentation/viewmodel/UserDetailViewModel.kt:42-64 | `Success(user)` exactly for a non-null success; `Success(null)` gives `Error("User not found", NOT_FOUND, false)`; errors are copied with the table's retryability |
| UserDetailViewModel.OperationStateFor | app/src/main/java/com/example/androidcleanarchitecture/presentation/viewmodel/UserDetailViewModel.kt:74-88 | `Success(message)` exactly for a success, errors copied with the table's retryability, `Loading` for loading, never `Idle` |
| UserDetailViewModel.UserDetailViewModel.constructor | app/src/main/java/com/example/androidcleanarchitecture/presentation/viewmodel/UserDetailViewModel.kt:26-31 | starts with `uiState` at `Loading` and `operationState` at `Idle` |
| UserDetailViewModel.UserDetailViewModel.LoadUser | app/src/main/java/com/example/androidcleanarchitecture/presentation/viewmodel/UserDetailViewModel.kt:36-66 | a null id changes nothing; otherwise `Loading`, then the state for the result; the operation state is untouched |
| UserDetailViewModel.UserDetailViewModel.SaveUser | app/src/main/java/com/example/androidcleanarchitecture/presentation/viewmodel/UserDetailViewModel.kt:71-90 | `Loading`, then the state for the use case's result on the given user, with "User saved successfully"; the user state is untouched |
| UserDetailViewModel.UserDetailViewModel.DeleteUser | app/src/main/java/com/example/androidcleanarchitecture/presentation/viewmodel/UserDetailViewModel.kt:95-117 | a null id changes nothing; otherwise `Loading`, then the state for the result with "User deleted successfully" |
| UserDetailViewModel.UserDetailViewModel.SetOperation | app/src/main/java/com/example/androidcleanarchitecture/presentation/viewmodel/UserDetailViewModel.kt:72-89 | the body shared by save and delete: `Loading`, then the state for the result, the user state untouched |
| UserDetailViewModel.UserDetailViewModel.ResetOperationState | app/src/main/java/com/example/androidcleanarchitecture/presentation/viewmodel/UserDetailViewModel.kt:122-124 | sets `Idle` and leaves the user state untouched |
| UserDetailViewModel.DetailErrorNotRetryable | app/src/main/java/com/example/androidcleanarchitecture/presentation/viewmodel/UserDetailViewModel.kt:43-59 | a non-retryable detail error comes exactly from a missing user or a client-side category |
| Domain.Resource.IsSuccess | app/src/main/java/com/example/androidcleanarchitecture/domain/util/Resource.kt:36-37 | no contract; specified by `Domain.ExactlyOneState` |
| Domain.Resource.IsError | app/src/main/java/com/example/androidcleanarchitecture/domain/util/Resource.kt:42-43 | no contract; specified by `Domain.ExactlyOneState` |
| Domain.Resource.IsLoading | app/src/main/java/com/example/androidcleanarchitecture/domain/util/Resource.kt:48-49 | no contract; specified by `Domain.ExactlyOneState` |
| Domain.Resource.GetDataOrNull | app/src/main/java/com/example/androidcleanarchitecture/domain/util/Resource.kt:54-57 | no contract; specified by `Domain.DataOrNullSpec` and `Domain.NullableDataOrNullSpec` |
| NetworkErrors.NetworkError.UserMessage | app/src/main/java/com/example/androidcleanarchitecture/data/network/NetworkError.kt:29-44 | no contract; specified by `NetworkErrors.ClientUserMessageFixedCodes`, `NetworkErrors.ClientUserMessageOtherCodes` and `NetworkErrors.UserMessageDependsOnlyOnVariant` |
| NetworkErrors.NetworkError.TechnicalMessage | app/src/main/java/com/example/androidcleanarchitecture/data/network/NetworkError.kt:50-60 | no contract; specified by `NetworkErrors.TechnicalMessageShape` and `NetworkErrors.TechnicalMessageIdentifiesCategory` |
| NetworkResults.MapExceptionToNetworkError | app/src/main/java/com/example/androidcleanarchitecture/data/network/NetworkResult.kt:60-67 | no contract; specified by `NetworkResults.ThrownException` and `NetworkResults.IOExceptionsAreConnectionErrors` |
| UserMapper.MapToDomain | app/src/main/java/com/example/androidcleanarchitecture/data/mapper/UserMapper.kt:16-22 | no contract; specified by `UserMapper.FieldsCopied` and `UserMapper.RoundTrips` |
| UserMapper.MapToData | app/src/main/java/com/example/androidcleanarchitecture/data/mapper/UserMapper.kt:29-35 | no contract; specified by `UserMapper.FieldsCopied` and `UserMapper.RoundTrips` |
| UserNetworkMapper.MapToData | app/src/main/java/com/example/androidcleanarchitecture/data/mapper/UserNetworkMapper.kt:17-23 | no contract; specified by `UserNetworkMapper.DataRoundTrip` and `UserNetworkMapper.NetworkRoundTrip` |
| UserNetworkMapper.MapToNetwork | app/src/main/java/com/example/androidcleanarchitecture/data/mapper/UserNetworkMapper.kt:30-37 | no contract; specified by `UserNetworkMapper.DataRoundTrip` and `UserNetworkMapper.NetworkRoundTrip` |
| UserNetworkDataSource.GetUserById | app/src/main/java/com/example/androidcleanarchitecture/data/datasource/UserNetworkDataSource.kt:25-31 | no contract; specified by `UserNetworkDataSource.ReadsMapWireData` and `UserNetworkDataSource.FailuresAreNetworkExceptions` |
| UserNetworkDataSource.GetAllUsers | app/src/main/java/com/example/androidcleanarchitecture/data/datasource/UserNetworkDataSource.kt:37-43 | no contract; specified by `UserNetworkDataSource.ReadsMapWireData` and `UserNetworkDataSource.ToResult` |
| UserNetworkDataSource.SaveUser | app/src/main/java/com/example/androidcleanarchitecture/data/datasource/UserNetworkDataSource.kt:50-57 | no contract; specified by `UserNetworkDataSource.SaveSendsWireForm` |
| UserNetworkDataSource.DeleteUser | app/src/main/java/com/example/androidcleanarchitecture/data/datasource/UserNetworkDataSource.kt:64-70 | no contract; specified by `UserNetworkDataSource.DeleteReportsTrue` |
| NetworkErrorTestUtil.SimulateNoConnectivity | app/src/main/java/com/example/androidcleanarchitecture/data/network/NetworkErrorTestUtil.kt:19-21 | no contract; specified by `NetworkErrorTestUtil.FixtureShapes` |
| NetworkErrorTestUtil.SimulateTimeout | app/src/main/java/com/example/androidcleanarchitecture/data/network/NetworkErrorTestUtil.kt:26-28 | no contract; specified by `NetworkErrorTestUtil.FixtureShapes` |
| NetworkErrorTestUtil.SimulateUnknownHost | app/src/main/java/com/example/androidcleanarchitecture/data/network/NetworkErrorTestUtil.kt:33-35 | no contract; specified by `NetworkErrorTestUtil.FixtureShapes` |
| NetworkErrorTestUtil.SimulateClientError | app/src/main/java/com/example/androidcleanarchitecture/data/network/NetworkErrorTestUtil.kt:40-50 | no contract; specified by `NetworkErrorTestUtil.FixtureShapes` and `NetworkErrorTestUtil.ClientErrorCodeIdentifiesStatus` |
| NetworkErrorTestUtil.SimulateServerError | app/src/main/java/com/example/androidcleanarchitecture/data/network/NetworkErrorTestUtil.kt:55-65 | no contract; specified by `NetworkErrorTestUtil.FixtureShapes` |
| NetworkErrorTestUtil.SimulateValidationError | app/src/main/java/com/example/androidcleanarchitecture/data/network/NetworkErrorTestUtil.kt:70-81 | no contract; specified by `NetworkErrorTestUtil.FixtureShapes` |
| NetworkErrorTestUtil.SimulateParseError | app/src/main/java/com/example/androidcleanarchitecture/data/network/NetworkErrorTestUtil.kt:86-88 | no contract; specified by `NetworkErrorTestUtil.FixtureShapes` |
| UserLocalDataSource.Lookup | app/src/main/java/com/example/androidcleanarchitecture/data/datasource/UserLocalDataSource.kt:23-30 | no contract; specified by `UserLocalDataSource.SaveThenGet` and `UserLocalDataSource.GetAbsent` |
| UserLocalDataSource.SaveResult | app/src/main/java/com/example/androidcleanarchitecture/data/datasource/UserLocalDataSource.kt:45-52 | no contract; specified by `UserLocalDataSource.SaveThenGet` and `UserLocalDataSource.SaveSentinel` |
| UserLocalDataSource.SaveEffect | app/src/main/java/com/example/androidcleanarchitecture/data/datasource/UserLocalDataSource.kt:45-52 | no contract; specified by `UserLocalDataSource.SaveThenGet`, `UserLocalDataSource.SaveSentinel`, `UserLocalDataSource.SaveFrame` and `UserLocalDataSource.SaveEffectWellFormed` |
| UserLocalDataSource.DeleteResult | app/src/main/java/com/example/androidcleanarchitecture/data/datasource/UserLocalDataSource.kt:59-66 | no contract; specified by `UserLocalDataSource.DeleteSpec` |
| UserLocalDataSource.DeleteEffect | app/src/main/java/com/example/androidcleanarchitecture/data/datasource/UserLocalDataSource.kt:59-66 | no contract; specified by `UserLocalDataSource.DeleteSpec` and `UserLocalDataSource.DeleteEffectWellFormed` |
| UserLocalDataSource.SaveAllEffect | app/src/main/java/com/example/androidcleanarchitecture/data/repository/UserRepositoryImpl.kt:68-70 | no contract; specified by `UserLocalDataSource.SaveAllLastWriteWins`, `UserLocalDataSource.SaveAllWellFormed` and `UserLocalDataSource.SaveAllCaches` |
| UserRepository.WriteOutcome | app/src/main/java/com/example/androidcleanarchitecture/data/repository/UserRepositoryImpl.kt:104-113 | no contract; specified by `UserRepository.WriteOutcomeSpec` and `UserRepository.SaveSentinelThroughRepository` |
| Kotlin.RenderNull | app/src/main/java/com/example/androidcleanarchitecture/data/network/NetworkError.kt:52-58 | a template shows a non-null string as itself, and shows `"null"` exactly for null or the string `"null"` |
| Kotlin.Render | app/src/main/java/com/example/androidcleanarchitecture/data/network/NetworkError.kt:52-58 | no contract; specified by `Kotlin.RenderNull` and `NetworkErrors.TechnicalMessageShape` |
| Kotlin.Option.OrElse | app/src/main/java/com/example/androidcleanarchitecture/data/repository/UserRepositoryImpl.kt:150-169 | no contract; specified by `UserRepository.MessageFallsBackToCategoryDefault` |
| Kotlin.Contains | app/src/main/java/com/example/androidcleanarchitecture/data/network/NetworkResult.kt:77 | no contract; specified by `Kotlin.ContainsIff` |
| Kotlin.SubstringAfter | app/src/main/java/com/example/androidcleanarchitecture/data/network/NetworkResult.kt:78 | no contract; specified by `Kotlin.SubstringAfterAt` |
| Kotlin.SubstringBefore | app/src/main/java/com/example/androidcleanarchitecture/data/network/NetworkResult.kt:78 | no contract; specified by `Kotlin.SubstringBeforeChar` and `Kotlin.SubstringBeforeCharFree` |
| Kotlin.IntToString | app/src/main/java/com/example/androidcleanarchitecture/data/datasource/UserLocalDataSource.kt:28 | no contract; specified by `Kotlin.IntToStringRoundTrip` and `Kotlin.IntToStringInjective` |
| Domain.NullableDataOrNull | app/src/main/java/com/example/androidcleanarchitecture/domain/util/Resource.kt:54-57 | no contract; specified by `Domain.NullableDataOrNullSpec` |
| UserLocalDataSource.Values | app/src/main/java/com/example/androidcleanarchitecture/data/datasource/UserLocalDataSource.kt:36-38 | no contract; specified by `UserLocalDataSource.ValuesInOrder`, `UserLocalDataSource.ValuesOnePerKey` and `UserLocalDataSource.DistinctCardinality` |
| UserRepository.CategoryOf | app/src/main/java/com/example/androidcleanarchitecture/data/repository/UserRepositoryImpl.kt:143-170 | no contract; the category table that `UserRepository.ClassificationTable` and `UserRepository.LocalAndValidationCategories` state `mapExceptionToResource` follows |
| UserRepository.DefaultMessage | app/src/main/java/com/example/androidcleanarchitecture/data/repository/UserRepositoryImpl.kt:150-169 | no contract; the fallback text per category, used by `UserRepository.MessageFallsBackToCategoryDefault` |
| UserRepository.MessageFallsBackToCategoryDefault | app/src/main/java/com/example/androidcleanarchitecture/data/repository/UserRepositoryImpl.kt:150-169 | the error message is the exception's own message, or else the fixed default text of its category |

## Left out

- The `UserDataSource` and `UserRepository` interfaces are not modelled. The repository holds the concrete local source, and the network source's answer is an input of each repository method.
- The use cases (`GetUserByIdUseCase` and the three others) are not modelled. They are one-line pass-throughs to the repository. The view models take the use case's result as an input.
- Concurrency is not modelled: the local source's `Mutex`, suspend functions and `viewModelScope.launch`. Each local operation is atomic and each launched block finishes at once.
- The two `StateFlow`s are fields. Collectors that miss intermediate values are not modelled, and the ghost write histories record every assignment instead.
- Transport is not modelled: Retrofit, OkHttp, Gson, the connectivity checker and `NetworkErrorTestUtil.createErrorResponse`. A call's outcome is an abstract value. The `Response` holds a code, an optional body and an error body that is absent, readable text, or unreadable.
- JVM exceptions are reduced to the classes the app tests for, plus an optional message treated as opaque text.
- Only `Exception`s are modelled as thrown. A `Throwable` that is not an `Exception` would escape `handleResponse`'s `catch`.
- The Kotlin `Int` is a Dafny `int`. No code in the core does arithmetic on ids or status codes, so 32-bit wrap-around never matters.
- The `catch` branch of `parseErrorBody` ("Could not parse error response") is not modelled. `contains`, `substringAfter` and `substringBefore` cannot throw, so the branch is unreachable.
- `UserRepository.MapExceptionToResource` keeps the `?: "Network error"`-style defaults. They are dead for a `NetworkException`, whose message is never null, and live only for the local fallback `"Local error"`.
- `NetworkErrors.NetworkError`: the Kotlin field types restrict which exception class each variant may carry (`Timeout` holds a `SocketTimeoutException`, for example). The model does not enforce this. Every way the model builds a value respects it.
- `UserDetailViewModel`'s private `isErrorRetryable` is identical to `UserListViewModel`'s. It is defined once here, in the `UserListViewModel` module.
- The Compose screens, navigation, theme, dependency wiring and the view-model factories are not modelled. They are framework bindings with no logic of their own.
