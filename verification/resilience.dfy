/** The resilience kernel: the timeout, retry and fallback wrappers applied to every
    external call, the mapping from exception kinds to HTTP responses, the health
    probe, and the fixed fallback texts and timeout budgets. */
module Resilience {
  import opened Text
  import opened Errors

  // ---------------------------------------------------------------------------
  // Timeout budgets (milliseconds)
  // ---------------------------------------------------------------------------

  const HttpConnectTimeout: Millis := 10000
  const HttpReadTimeout: Millis := 30000
  const HttpTotalTimeout: Millis := 60000
  const PineconeConnectTimeout: Millis := 15000
  const PineconeOperationTimeout: Millis := 45000
  const LlmGenerationTimeout: Millis := 30000
  const LlmEmbeddingTimeout: Millis := 20000
  const DocumentDownloadTimeout: Millis := 120000
  const DocumentProcessingTimeout: Millis := 60000
  const VectorStoreCreateTimeout: Millis := 90000
  const VectorStoreSearchTimeout: Millis := 30000

  /** The deadline a health probe gets. */
  const HealthProbeTimeout: Millis := 10000

  // ---------------------------------------------------------------------------
  // Fallback texts
  // ---------------------------------------------------------------------------

  const DocumentFallbackText :=
    "Document processing failed. Please " +
    "try again with a different document " +
    "or check the URL."
  const AnswerFallbackText :=
    "I'm sorry, I couldn't generate an " +
    "answer for this question due to a " +
    "technical issue. Please try " +
    "rephrasing your question or try " +
    "again later."
  const SearchFallbackText :=
    "I couldn't search the document for " +
    "relevant information. Please ensure " +
    "the document was processed " +
    "correctly and try again."

  /** The structured error body `get_fallback_response` builds for an endpoint. */
  datatype FallbackResponse = FallbackResponse(status: string, operation: string, message: string,
                                               error: string, fallbackUsed: bool, suggestion: string)

  const FailedPrefix := "Operation failed: "
  const SupportSuggestion :=
    "Please try again later or contact " +
    "support if the issue persists."

  /** `get_fallback_response(operation, error)`: an "error" body that names the
      operation twice (as a field and after the fixed message prefix), carries
      the error text unchanged and marks the fallback as used. */
  function GetFallbackResponse(operation: string, error: string): (r: FallbackResponse)
    ensures r.status == "error" && r.fallbackUsed && r.suggestion == SupportSuggestion
    ensures r.operation == operation && r.error == error
    ensures FailedPrefix <= r.message && r.message[|FailedPrefix|..] == operation
  {
    FallbackResponse("error", operation, FailedPrefix + operation, error, true, SupportSuggestion)
  }

  /** The message alone identifies the failed operation: two responses with the
      same message are about the same operation. */
  lemma FallbackMessageNamesOperation(op1: string, err1: string, op2: string, err2: string)
    ensures GetFallbackResponse(op1, err1).message == GetFallbackResponse(op2, err2).message <==> op1 == op2
  {
    var m1 := GetFallbackResponse(op1, err1).message;
    var m2 := GetFallbackResponse(op2, err2).message;
    if m1 == m2 {
      assert op1 == m1[|FailedPrefix|..] == m2[|FailedPrefix|..] == op2;
    }
  }

  // ---------------------------------------------------------------------------
  // Timeout wrapper
  // ---------------------------------------------------------------------------

  /** The timeout decorator as an outcome transformer: a finished call passes
      through, an expired deadline (or an asyncio timeout raised by the call
      itself, which the same `except` clause catches) becomes the service's
      TimeoutError carrying the decorator's arguments. */
  function WithTimeout<T>(c: Completion<T>, limit: Millis, operation: string): (r: Result<T>)
    ensures r.Ok? <==> c.Finished? && c.outcome.Ok?
    ensures r.Ok? ==> r == c.outcome
    ensures c.Expired? || c == Finished(Err(AsyncTimeout)) ==> r == Err(Timeout(operation, limit))
    ensures c.Finished? && c.outcome.Err? && c.outcome.error != AsyncTimeout ==> r == c.outcome
    ensures r != Err(AsyncTimeout)
  {
    match c
    case Expired => Err(Timeout(operation, limit))
    case Finished(Ok(v)) => Ok(v)
    case Finished(Err(AsyncTimeout)) => Err(Timeout(operation, limit))
    case Finished(Err(e)) => Err(e)
  }

  /** Wrapping an outcome that already went through a timeout wrapper in a second,
      unexpired one changes nothing. */
  lemma WithTimeoutIdempotent<T>(c: Completion<T>, limit: Millis, operation: string,
                                 limit': Millis, operation': string)
    ensures WithTimeout(Finished(WithTimeout(c, limit, operation)), limit', operation')
            == WithTimeout(c, limit, operation)
  {
  }

  // ---------------------------------------------------------------------------
  // Retry wrapper
  // ---------------------------------------------------------------------------

  function Pow2(n: nat): (p: nat)
    ensures p >= 1
  {
    if n == 0 then 1 else 2 * Pow2(n - 1)
  }

  /** One run of the retry decorator: what it finally returned or raised, how many
      times it invoked the operation, and the sleeps it requested in between. */
  datatype RetryRun<+T> = RetryRun(result: Result<T>, calls: nat, waits: seq<Millis>)

  /** The retry loop from attempt `attempt` (0-based) on. `op(a)` is what the
      wrapped operation returns or raises on attempt `a`. */
  function RetryFrom<T>(op: nat -> Result<T>, attempt: nat, maxRetries: nat,
                        backoff: Millis, exceptions: seq<ExcClass>): (run: RetryRun<T>)
    requires attempt <= maxRetries
    ensures attempt < run.calls <= maxRetries + 1
    ensures run.result == op(run.calls - 1)
    ensures forall a :: attempt <= a < run.calls - 1 ==> op(a).Err? && Catches(exceptions, op(a).error)
    ensures run.result.Err? ==> run.calls == maxRetries + 1 || !Catches(exceptions, run.result.error)
    ensures |run.waits| == run.calls - 1 - attempt
    ensures forall k :: 0 <= k < |run.waits| ==> run.waits[k] == backoff * Pow2(attempt + k)
    decreases maxRetries - attempt
  {
    match op(attempt)
    case Ok(v) => RetryRun(Ok(v), attempt + 1, [])
    case Err(e) =>
      if !Catches(exceptions, e) || attempt == maxRetries then RetryRun(Err(e), attempt + 1, [])
      else
        var rest := RetryFrom(op, attempt + 1, maxRetries, backoff, exceptions);
        RetryRun(rest.result, rest.calls, [backoff * Pow2(attempt)] + rest.waits)
  }

  /** The retry decorator: up to `maxRetries + 1` invocations; an exception of a
      listed class is retried after sleeping `backoff * 2^attempt`, any other
      exception and the last attempt's exception propagate unchanged. */
  function Retry<T>(op: nat -> Result<T>, maxRetries: nat, backoff: Millis,
                    exceptions: seq<ExcClass>): (run: RetryRun<T>)
    ensures 1 <= run.calls <= maxRetries + 1
    ensures run.result == op(run.calls - 1)
    ensures forall a :: 0 <= a < run.calls - 1 ==> op(a).Err? && Catches(exceptions, op(a).error)
    ensures run.result.Err? ==> run.calls == maxRetries + 1 || !Catches(exceptions, run.result.error)
    ensures |run.waits| == run.calls - 1
    ensures forall k :: 0 <= k < |run.waits| ==> run.waits[k] == backoff * Pow2(k)
  {
    RetryFrom(op, 0, maxRetries, backoff, exceptions)
  }

  /** An operation that fails `k <= maxRetries` times with a listed class and then
      succeeds is invoked exactly `k + 1` times, and its success is returned. */
  lemma RetryFirstSuccess<T>(op: nat -> Result<T>, maxRetries: nat, backoff: Millis,
                             exceptions: seq<ExcClass>, k: nat)
    requires k <= maxRetries
    requires forall a :: 0 <= a < k ==> op(a).Err? && Catches(exceptions, op(a).error)
    requires op(k).Ok?
    ensures Retry(op, maxRetries, backoff, exceptions).result == op(k)
    ensures Retry(op, maxRetries, backoff, exceptions).calls == k + 1
    ensures |Retry(op, maxRetries, backoff, exceptions).waits| == k
  {
    var run := Retry(op, maxRetries, backoff, exceptions);
    if run.calls - 1 < k {
      assert false;
    }
  }

  /** The loop stops at the first attempt that succeeds or raises a class it
      does not retry: after `k` retried failures, attempt `k` is the last one and
      its outcome is returned unchanged. */
  lemma RetryStopsAt<T>(op: nat -> Result<T>, maxRetries: nat, backoff: Millis,
                        exceptions: seq<ExcClass>, k: nat)
    requires k <= maxRetries
    requires forall a :: 0 <= a < k ==> op(a).Err? && Catches(exceptions, op(a).error)
    requires op(k).Ok? || !Catches(exceptions, op(k).error)
    ensures Retry(op, maxRetries, backoff, exceptions).result == op(k)
    ensures Retry(op, maxRetries, backoff, exceptions).calls == k + 1
  {
    var run := Retry(op, maxRetries, backoff, exceptions);
    if run.calls - 1 < k {
      assert false;
    }
  }

  /** An operation whose every attempt raises a listed class is invoked
      `maxRetries + 1` times, sleeps `maxRetries` times, and the last attempt's
      exception is re-raised unchanged. */
  lemma RetryExhausted<T>(op: nat -> Result<T>, maxRetries: nat, backoff: Millis,
                          exceptions: seq<ExcClass>)
    requires forall a :: 0 <= a <= maxRetries ==> op(a).Err? && Catches(exceptions, op(a).error)
    ensures Retry(op, maxRetries, backoff, exceptions).result == op(maxRetries)
    ensures Retry(op, maxRetries, backoff, exceptions).calls == maxRetries + 1
    ensures |Retry(op, maxRetries, backoff, exceptions).waits| == maxRetries
  {
    var run := Retry(op, maxRetries, backoff, exceptions);
    assert op(run.calls - 1).Err? && Catches(exceptions, op(run.calls - 1).error);
  }

  /** An exception of an unlisted class on the first attempt propagates at once:
      one invocation, no sleep. */
  lemma RetryNotListed<T>(op: nat -> Result<T>, maxRetries: nat, backoff: Millis,
                          exceptions: seq<ExcClass>)
    requires op(0).Err? && !Catches(exceptions, op(0).error)
    ensures Retry(op, maxRetries, backoff, exceptions) == RetryRun(op(0), 1, [])
  {
    var run := Retry(op, maxRetries, backoff, exceptions);
    if run.calls > 1 {
      assert false;
    }
  }

  lemma DoubleFactor(b: nat, p: nat)
    ensures b * (2 * p) == 2 * (b * p)
  {
  }

  /** The requested sleeps grow by doubling: each is twice the one before. */
  lemma RetryWaitsDouble<T>(op: nat -> Result<T>, maxRetries: nat, backoff: Millis,
                            exceptions: seq<ExcClass>, k: nat)
    requires 0 < k < |Retry(op, maxRetries, backoff, exceptions).waits|
    ensures Retry(op, maxRetries, backoff, exceptions).waits[k]
            == 2 * Retry(op, maxRetries, backoff, exceptions).waits[k - 1]
  {
    var w := Retry(op, maxRetries, backoff, exceptions).waits;
    DoubleFactor(backoff, Pow2(k - 1));
  }

  // ---------------------------------------------------------------------------
  // Fallback wrapper
  // ---------------------------------------------------------------------------

  /** A run of the fallback combinator: its outcome, and the arguments the
      fallback was called with (None when it was not called). */
  datatype FallbackRun<+A, +T> = FallbackRun(result: Result<T>, fallbackArgs: Option<A>)

  /** `safe_execute_with_fallback`: the primary's value if it has one; otherwise the
      fallback is called with the same arguments and its value returned; when the
      fallback fails too, an ExternalServiceError naming the operation and carrying
      the primary's message is raised. */
  function SafeExecuteWithFallback<A, T>(primary: A -> Result<T>, fallback: A -> Result<T>,
                                         operation: string, args: A): (run: FallbackRun<A, T>)
    ensures primary(args).Ok? ==> run == FallbackRun(primary(args), None)
    ensures primary(args).Err? ==> run.fallbackArgs == Some(args)
    ensures primary(args).Err? && fallback(args).Ok? ==> run.result == fallback(args)
    ensures primary(args).Err? && fallback(args).Err? ==>
              run.result == Err(ExternalService(operation, Str(primary(args).error)))
  {
    match primary(args)
    case Ok(v) => FallbackRun(Ok(v), None)
    case Err(e) =>
      match fallback(args)
      case Ok(w) => FallbackRun(Ok(w), Some(args))
      case Err(_) => FallbackRun(Err(ExternalService(operation, Str(e))), Some(args))
  }

  /** The combinator succeeds iff the primary or the fallback does, and the only
      exception it ever raises is an ExternalServiceError for the operation: a
      fallback's own exception never escapes. */
  lemma FallbackOutcome<A, T>(primary: A -> Result<T>, fallback: A -> Result<T>,
                              operation: string, args: A)
    ensures SafeExecuteWithFallback(primary, fallback, operation, args).result.Ok?
            <==> primary(args).Ok? || fallback(args).Ok?
    ensures SafeExecuteWithFallback(primary, fallback, operation, args).result.Err? ==>
              SafeExecuteWithFallback(primary, fallback, operation, args).result.error.ExternalService? &&
              SafeExecuteWithFallback(primary, fallback, operation, args).result.error.service == operation
  {
  }

  // ---------------------------------------------------------------------------
  // Exception -> HTTP response
  // ---------------------------------------------------------------------------

  datatype HttpError = HttpError(status: nat, detail: string)

  /** `handle_request_error`: 504 Gateway Timeout (section 15.6.5 of RFC 9110) for a
      timeout, 502 Bad Gateway (15.6.3) for a failing external service, 422
      Unprocessable Content (15.5.21) for a document that cannot be processed, 503
      Service Unavailable (15.6.4) for the vector store, and 500 Internal Server
      Error (15.6.1) for everything else, resource initialisation included. */
  function HandleRequestError(e: Exc, operation: string): (h: HttpError)
    ensures h.status == 504 <==> e.Timeout?
    ensures h.status == 502 <==> e.ExternalService?
    ensures h.status == 422 <==> e.DocumentProcessing?
    ensures h.status == 503 <==> e.VectorStore?
    ensures h.status == 500 <==> !(e.Timeout? || e.ExternalService? || e.DocumentProcessing? || e.VectorStore?)
  {
    match e
    case Timeout(op, t) =>
      HttpError(504, "Request timeout: " + op + " took longer than " + SecondsText(t) + " seconds")
    case ExternalService(s, err) => HttpError(502, "External service error: " + s + " - " + err)
    case DocumentProcessing(op, err) => HttpError(422, "Document processing failed: " + op + " - " + err)
    case VectorStore(op, err) => HttpError(503, "Vector store error: " + op + " - " + err)
    case _ => HttpError(500, "Internal server error in " + operation + ": " + Str(e))
  }

  /** Only an undecodable document is the client's fault (4xx); every other kind is
      a server-side status (5xx). */
  lemma RequestErrorClass(e: Exc, operation: string)
    ensures var h := HandleRequestError(e, operation);
            (400 <= h.status < 500 <==> e.DocumentProcessing?) &&
            (500 <= h.status < 600 <==> !e.DocumentProcessing?)
  {
  }

  /** `handle_startup_error`: any startup failure becomes a
      ResourceInitializationError for the resource, carrying the failure's message. */
  function HandleStartupError(e: Exc, resource: string): (r: Exc)
    ensures r.ResourceInitialization? && r.resource == resource
    ensures Str(r) == "Failed to initialize resource '" + resource + "': " + Str(e)
  {
    ResourceInitialization(resource, Str(e))
  }

  // ---------------------------------------------------------------------------
  // Health probe
  // ---------------------------------------------------------------------------

  datatype HealthStatus = Healthy | Unhealthy | TimedOut

  datatype HealthReport = HealthReport(service: string, status: HealthStatus,
                                       responseTime: Option<real>, error: Option<string>)

  /** `check_external_service_health`: the probe raced against a 10 s deadline;
      `elapsed` is the measured response time when it finishes. */
  function CheckExternalServiceHealth(service: string, probe: Completion<()>, elapsed: real): (h: HealthReport)
    ensures h.service == service
    ensures h.status == Healthy <==> probe.Finished? && probe.outcome.Ok?
    ensures h.status == TimedOut <==> probe.Expired? || probe == Finished(Err(AsyncTimeout))
    ensures h.responseTime.Some? <==> h.status == Healthy
    ensures h.status == Healthy ==> h.responseTime == Some(elapsed)
    ensures h.error.Some? <==> h.status != Healthy
    ensures probe.Finished? && probe.outcome.Err? && probe.outcome.error != AsyncTimeout ==>
              h.status == Unhealthy && h.error == Some(Str(probe.outcome.error))
  {
    match probe
    case Finished(Ok(_)) => HealthReport(service, Healthy, Some(elapsed), None)
    case Expired => HealthReport(service, TimedOut, None, Some("Health check timed out"))
    case Finished(Err(AsyncTimeout)) => HealthReport(service, TimedOut, None, Some("Health check timed out"))
    case Finished(Err(e)) => HealthReport(service, Unhealthy, None, Some(Str(e)))
  }
}
