/**
 * The application error value: a message, a machine-readable code and a
 * transport status code, built once and never changed afterwards.
 */
module AppErrors {
  import opened Wrappers

  /** The fields an `AppError` carries besides its stack trace. */
  datatype AppError = AppError(name: string, message: string, code: string, statusCode: int)

  const ErrorName := "AppError"
  const DefaultCode := "UNKNOWN"
  const DefaultStatusCode := 500

  /** A status code a caller caused (4xx). */
  predicate IsClientStatus(status: int) {
    400 <= status <= 499
  }

  /** A status code the system caused (5xx). */
  predicate IsServerStatus(status: int) {
    500 <= status <= 599
  }

  /**
   * `new AppError(message, code?, statusCode?)`: an omitted code is
   * `UNKNOWN` and an omitted status is 500; what is given is kept as it is.
   */
  function NewAppError(message: string, code: Option<string>, statusCode: Option<int>): (e: AppError)
    ensures e.name == ErrorName
    ensures e.message == message
    ensures code.Some? ==> e.code == code.value
    ensures code.None? ==> e.code == DefaultCode
    ensures statusCode.Some? ==> e.statusCode == statusCode.value
    ensures statusCode.None? ==> e.statusCode == DefaultStatusCode
  {
    AppError(ErrorName,
             message,
             match code case Some(c) => c case None => DefaultCode,
             match statusCode case Some(s) => s case None => DefaultStatusCode)
  }

  /** `createValidationError(message)`. */
  function CreateValidationError(message: string): (e: AppError)
    ensures e.name == ErrorName && e.message == message
    ensures e.code == "VALIDATION_ERROR" && e.statusCode == 400
  {
    NewAppError(message, Some("VALIDATION_ERROR"), Some(400))
  }

  /** `createNotFoundError(message)`. */
  function CreateNotFoundError(message: string): (e: AppError)
    ensures e.name == ErrorName && e.message == message
    ensures e.code == "NOT_FOUND" && e.statusCode == 404
  {
    NewAppError(message, Some("NOT_FOUND"), Some(404))
  }

  /** An error built from a message alone is an `UNKNOWN` server error. */
  lemma MessageOnlyDefaults(message: string)
    ensures NewAppError(message, None, None).code == "UNKNOWN"
    ensures NewAppError(message, None, None).statusCode == 500
    ensures IsServerStatus(NewAppError(message, None, None).statusCode)
    ensures NewAppError(message, None, None) == NewAppError(message, Some(DefaultCode), Some(DefaultStatusCode))
  {
  }

  /**
   * The constructor loses nothing: two errors are equal exactly when they
   * were built from the same message, code and status.
   */
  lemma NewAppErrorInjective(m1: string, c1: string, s1: int, m2: string, c2: string, s2: int)
    ensures NewAppError(m1, Some(c1), Some(s1)) == NewAppError(m2, Some(c2), Some(s2))
        <==> m1 == m2 && c1 == c2 && s1 == s2
  {
  }

  /** Whatever the arguments, the error is named `AppError`. */
  lemma NameIsFixed(message: string, code: Option<string>, statusCode: Option<int>)
    ensures NewAppError(message, code, statusCode).name == "AppError"
    ensures CreateValidationError(message).name == "AppError"
    ensures CreateNotFoundError(message).name == "AppError"
  {
  }

  /**
   * The two factories are told apart by their codes, whatever the messages,
   * and both give client (4xx) statuses.
   */
  lemma FactoriesDistinctClientErrors(m1: string, m2: string)
    ensures CreateValidationError(m1).code != CreateNotFoundError(m2).code
    ensures CreateValidationError(m1) != CreateNotFoundError(m2)
    ensures IsClientStatus(CreateValidationError(m1).statusCode)
    ensures IsClientStatus(CreateNotFoundError(m2).statusCode)
    ensures CreateValidationError(m1).code != DefaultCode && CreateNotFoundError(m2).code != DefaultCode
  {
  }
}
