/** The client's error classes and error handler (`errorHandler.ts`): how a
    thrown value is classified into an application error, which text the user
    is shown, and the retry loop around an API call. */
module ErrorHandler {
  import opened Options
  import opened Strings
  import opened Js

  // ---- The error classes ----

  /** `AppError` and its three subclasses. */
  datatype ErrorClass = App | Network | Validation | Auth

  /** An instance of one of the classes: `name` follows from the class. */
  datatype AppError = AppError(cls: ErrorClass, message: string, code: Option<string>, statusCode: Option<int>, field: Option<string>)

  /** The `name` each constructor assigns. */
  function Name(e: AppError): string {
    match e.cls
    case App => "AppError"
    case Network => "NetworkError"
    case Validation => "ValidationError"
    case Auth => "AuthError"
  }

  function NewAppError(message: string, code: Option<string>, statusCode: Option<int>): (r: AppError)
    ensures r.cls == App && r.message == message
  {
    AppError(App, message, code, statusCode, None)
  }

  /** `new NetworkError(message)`; the class's default message is `DefaultNetworkMessage`. */
  function NewNetworkError(message: string): (r: AppError)
    ensures r.cls == Network && r.code == Some("NETWORK_ERROR") && r.statusCode.None?
  {
    AppError(Network, message, Some("NETWORK_ERROR"), None, None)
  }

  function NewValidationError(message: string, field: Option<string>): (r: AppError)
    ensures r.cls == Validation && r.code == Some("VALIDATION_ERROR") && r.statusCode.None? && r.field == field
  {
    AppError(Validation, message, Some("VALIDATION_ERROR"), None, field)
  }

  /** `new AuthError(message)`: always status code 401. */
  function NewAuthError(message: string): (r: AppError)
    ensures r.cls == Auth && r.code == Some("AUTH_ERROR") && r.statusCode == Some(401)
  {
    AppError(Auth, message, Some("AUTH_ERROR"), Some(401), None)
  }

  const DefaultNetworkMessage := "Network connection failed"
  const DefaultAuthMessage := "Authentication failed"

  // ---- Classifying a thrown value ----

  /** The properties `handleApiError` reads from what was thrown. `message` is
      `None` when the value has no message. */
  datatype Thrown = Thrown(name: JsValue, message: Option<string>, status: JsValue, statusCode: JsValue)

  /** `error.name === 'NetworkError' || error.message?.includes('Network')`. */
  predicate NetworkLike(e: Thrown) {
    e.name == Str("NetworkError") || (e.message.Some? && Includes(e.message.value, "Network"))
  }

  /** `error.status === code || error.statusCode === code`: strict, numbers only. */
  predicate HasStatus(e: Thrown, code: int) {
    e.status == Num(code as real) || e.statusCode == Num(code as real)
  }

  /** `error.status >= 500`: a numeric comparison after conversion. */
  predicate ServerStatus(e: Thrown, eng: Engine) {
    match ToNumber(e.status, eng)
    case NaN => false
    case Real(x) => x >= 500.0
  }

  /** `error.message || fallback`. */
  function MessageOr(e: Thrown, fallback: string): (r: string)
    ensures r != "" <==> fallback != "" || (e.message.Some? && e.message.value != "")
  {
    if e.message.Some? && e.message.value != "" then e.message.value else fallback
  }

  const ConnectionAdvice := "Please check your internet connection and try again"
  const ServerTrouble := "Server error. Please try again later"

  /** `handleApiError`: network trouble first, then 401, then 400, then any
      status of 500 or more, else a plain error with the original message. */
  function HandleApiError(e: Thrown, eng: Engine): (r: AppError)
    ensures r.cls == Network <==> NetworkLike(e)
    ensures r.cls == Auth <==> !NetworkLike(e) && HasStatus(e, 401)
    ensures r.cls == Validation <==> !NetworkLike(e) && !HasStatus(e, 401) && HasStatus(e, 400)
    ensures r.cls == Auth ==> r.statusCode == Some(401) && r.message == "Please login again"
    ensures r.cls == Validation ==> r.message == MessageOr(e, "Invalid request")
    ensures r.cls == App ==> r.message == if ServerStatus(e, eng) then ServerTrouble else MessageOr(e, "Something went wrong")
    ensures r.message != ""
  {
    if NetworkLike(e) then NewNetworkError(ConnectionAdvice)
    else if HasStatus(e, 401) then NewAuthError("Please login again")
    else if HasStatus(e, 400) then NewValidationError(MessageOr(e, "Invalid request"), None)
    else if ServerStatus(e, eng) then NewAppError(ServerTrouble, None, None)
    else NewAppError(MessageOr(e, "Something went wrong"), None, None)
  }

  /** A network failure is reported as such whatever status came with it. */
  lemma NetworkBeatsStatus(message: string, status: int, eng: Engine)
    ensures HandleApiError(Thrown(Undefined, Some("Network request failed"), Num(status as real), Undefined), eng).cls == Network
    ensures HandleApiError(Thrown(Str("NetworkError"), Some(message), Num(status as real), Num(status as real)), eng).cls == Network
  {
    assert OccursAt("Network request failed", "Network", 0);
    IncludesIffOccurs("Network request failed", "Network");
  }

  /** Only the strict number 401 means "log in again"; its string form does not. */
  lemma StatusIsStrict(eng: Engine)
    ensures HandleApiError(Thrown(Undefined, None, Num(401.0), Undefined), eng).cls == Auth
    ensures HandleApiError(Thrown(Undefined, None, Str("401"), Undefined), eng).cls == App
  {
  }

  // ---- Showing an error ----

  /** What `showError` receives: any `Error`, or one of the application errors. */
  datatype Shown = PlainError(message: string) | Raised(e: AppError)

  const DefaultAlert := "Something went wrong. Please try again."

  /** The message `showError` picks. */
  function AlertMessage(error: Shown): (r: string)
    ensures error.Raised? && error.e.cls == Network ==> r == "Please check your internet connection and try again."
    ensures error.Raised? && error.e.cls == Auth ==> r == "Please login again to continue."
    ensures error.Raised? && error.e.cls == Validation ==> r == error.e.message
    ensures (error.PlainError? || error.e.cls == App) ==>
      r == if ErrorMessage(error) != "" then ErrorMessage(error) else DefaultAlert
  {
    if error.Raised? && error.e.cls == Network then "Please check your internet connection and try again."
    else if error.Raised? && error.e.cls == Auth then "Please login again to continue."
    else if error.Raised? && error.e.cls == Validation then error.e.message
    else if ErrorMessage(error) != "" then ErrorMessage(error)
    else DefaultAlert
  }

  function ErrorMessage(error: Shown): string {
    match error
    case PlainError(m) => m
    case Raised(e) => e.message
  }

  /** `showError(error, title)`: the alert's title and text; the title defaults to "Error". */
  function ShowError(error: Shown, title: Option<string>): (r: (string, string))
    ensures r.0 == (if title.Some? then title.value else "Error")
    ensures r.1 == AlertMessage(error)
  {
    (if title.Some? then title.value else "Error", AlertMessage(error))
  }

  /** Only a validation error with an empty message gives an empty alert. */
  lemma EmptyAlertOnlyForValidation(error: Shown)
    ensures AlertMessage(error) == "" <==> error.Raised? && error.e.cls == Validation && error.e.message == ""
  {
  }

  /** Whatever was thrown, the alert for its classified error is never empty. */
  lemma ClassifiedAlertNeverEmpty(e: Thrown, eng: Engine)
    ensures AlertMessage(Raised(HandleApiError(e, eng))) != ""
  {
    EmptyAlertOnlyForValidation(Raised(HandleApiError(e, eng)));
  }

  // ---- Retrying ----

  /** One call of the operation: a value, or a thrown error. */
  datatype Outcome<T> = Ok(value: T) | Err(error: Thrown)

  /** What `withRetry` throws: the classified last error; the last error as
      thrown, when `maxRetries` is not a whole number; or `undefined`, when no
      attempt was made. */
  datatype Failure = Classified(e: AppError) | Rethrown(error: Thrown) | UndefinedThrown

  datatype RetryResult<T> = Returned(value: T) | Threw(failure: Failure)

  /** The outcome of `withRetry` from attempt `attempt` on, given what each call
      yields (`operation(k)` is the result of the k-th call) and the last error so far. */
  function Retry<T>(operation: nat -> Outcome<T>, maxRetries: real, attempt: nat, lastError: Option<Thrown>, eng: Engine): (r: RetryResult<T>)
    requires attempt >= 1
    decreases if maxRetries < attempt as real then 0 else maxRetries.Floor + 1 - attempt
  {
    if maxRetries < attempt as real then
      Threw(if lastError.Some? then Rethrown(lastError.value) else UndefinedThrown)
    else
      match operation(attempt)
      case Ok(v) => Returned(v)
      case Err(err) =>
        if attempt as real == maxRetries then Threw(Classified(HandleApiError(err, eng)))
        else Retry(operation, maxRetries, attempt + 1, Some(err), eng)
  }

  /** The number of calls `withRetry` makes from attempt `attempt` on. */
  function Calls<T>(operation: nat -> Outcome<T>, maxRetries: real, attempt: nat): nat
    requires attempt >= 1
    decreases if maxRetries < attempt as real then 0 else maxRetries.Floor + 1 - attempt
  {
    if maxRetries < attempt as real then 0
    else if operation(attempt).Ok? || attempt as real == maxRetries then 1
    else 1 + Calls(operation, maxRetries, attempt + 1)
  }

  /** `withRetry(operation, maxRetries, delay)`: call the operation until it
      succeeds or `maxRetries` attempts have failed, waiting `delay * attempt`
      after failed attempt `attempt` when another follows. Returns the result,
      the number of calls made and the waits in order. */
  method WithRetry<T>(operation: nat -> Outcome<T>, maxRetries: real, delay: real, eng: Engine)
    returns (result: RetryResult<T>, calls: nat, waits: seq<real>)
    ensures result == Retry(operation, maxRetries, 1, None, eng)
    ensures calls == Calls(operation, maxRetries, 1)
    ensures (result.Returned? || result.failure.Classified?) ==> calls >= 1 && |waits| == calls - 1
    ensures (result.Threw? && !result.failure.Classified?) ==> |waits| == calls
    ensures forall k :: 0 <= k < |waits| ==> waits[k] == delay * (k + 1) as real
  {
    var attempt: nat := 1;
    var lastError: Option<Thrown> := None;
    calls := 0;
    waits := [];
    while attempt as real <= maxRetries
      invariant attempt >= 1 && calls == attempt - 1 && |waits| == calls
      invariant forall k :: 0 <= k < |waits| ==> waits[k] == delay * (k + 1) as real
      invariant Retry(operation, maxRetries, 1, None, eng) == Retry(operation, maxRetries, attempt, lastError, eng)
      invariant Calls(operation, maxRetries, 1) == calls + Calls(operation, maxRetries, attempt)
      invariant attempt > 1 ==> lastError.Some?
      decreases maxRetries.Floor + 1 - attempt
    {
      var outcome := operation(attempt);
      calls := calls + 1;
      match outcome {
        case Ok(v) =>
          result := Returned(v);
          return;
        case Err(err) =>
          lastError := Some(err);
          if attempt as real == maxRetries {
            result := Threw(Classified(HandleApiError(err, eng)));
            return;
          }
      }
      waits := waits + [delay * attempt as real];
      attempt := attempt + 1;
    }
    result := Threw(if lastError.Some? then Rethrown(lastError.value) else UndefinedThrown);
  }

  /** `withRetry` never calls the operation more than `maxRetries` times, and
      stops at the first success, which it returns. */
  lemma {:induction false} RetryBounded<T>(operation: nat -> Outcome<T>, maxRetries: real, attempt: nat, lastError: Option<Thrown>, eng: Engine)
    requires attempt >= 1
    ensures (attempt - 1 + Calls(operation, maxRetries, attempt)) as real <= (if maxRetries < attempt as real then (attempt - 1) as real else maxRetries)
    ensures Retry(operation, maxRetries, attempt, lastError, eng).Returned? <==>
      exists k :: attempt <= k < attempt + Calls(operation, maxRetries, attempt) && operation(k).Ok?
    ensures Calls(operation, maxRetries, attempt) > 0 ==> (
      var last := attempt + Calls(operation, maxRetries, attempt) - 1;
      (forall k :: attempt <= k < last ==> operation(k).Err?) &&
      (Retry(operation, maxRetries, attempt, lastError, eng).Returned? ==>
        Retry(operation, maxRetries, attempt, lastError, eng).value == operation(last).value))
    decreases if maxRetries < attempt as real then 0 else maxRetries.Floor + 1 - attempt
  {
    if maxRetries >= attempt as real && !operation(attempt).Ok? && attempt as real != maxRetries {
      RetryBounded(operation, maxRetries, attempt + 1, Some(operation(attempt).error), eng);
    }
  }

  /** With a whole number `n >= 1` of retries, failing every time ends in the
      classification of the n-th error, after exactly `n` calls. */
  lemma {:induction false} AllFailClassified<T>(operation: nat -> Outcome<T>, n: nat, attempt: nat, lastError: Option<Thrown>, eng: Engine)
    requires 1 <= attempt <= n
    requires forall k :: attempt <= k <= n ==> operation(k).Err?
    ensures Retry(operation, n as real, attempt, lastError, eng) == Threw(Classified(HandleApiError(operation(n).error, eng)))
    ensures Calls(operation, n as real, attempt) == n - attempt + 1
    decreases n - attempt
  {
    if attempt < n {
      AllFailClassified(operation, n, attempt + 1, Some(operation(attempt).error), eng);
    }
  }

  /** With a fractional `maxRetries`, failing every time rethrows the last
      error unclassified, because no attempt number equals `maxRetries`. */
  lemma {:induction false} FractionalRetriesRethrow<T>(operation: nat -> Outcome<T>, maxRetries: real, attempt: nat, lastError: Option<Thrown>, eng: Engine)
    requires attempt >= 1 && maxRetries != maxRetries.Floor as real && maxRetries >= 1.0
    requires attempt as real <= maxRetries + 1.0
    requires attempt > 1 ==> operation(attempt - 1).Err? && lastError == Some(operation(attempt - 1).error)
    requires forall k :: 1 <= k <= maxRetries.Floor ==> operation(k).Err?
    ensures Retry(operation, maxRetries, attempt, lastError, eng) == Threw(Rethrown(operation(maxRetries.Floor).error))
    decreases if maxRetries < attempt as real then 0 else maxRetries.Floor + 1 - attempt
  {
    if maxRetries >= attempt as real {
      FractionalRetriesRethrow(operation, maxRetries, attempt + 1, Some(operation(attempt).error), eng);
    } else {
      assert attempt == maxRetries.Floor + 1;
    }
  }

  /** No attempt at all throws `undefined`. */
  lemma NoAttempts<T>(operation: nat -> Outcome<T>, maxRetries: real, eng: Engine)
    requires maxRetries < 1.0
    ensures Retry(operation, maxRetries, 1, None, eng) == Threw(UndefinedThrown)
    ensures Calls(operation, maxRetries, 1) == 0
  {
  }
}
