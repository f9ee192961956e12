/** The process-wide resource registry: three optional handles (the Pinecone
    client, the embeddings client and the chat model), the readiness predicate,
    the guarded accessors, the health aggregation, the index-exists-or-create
    decision, the retried and deadline-guarded start-up of each handle and the
    fail-fast `initialize`. Environment variables and every call into the
    Pinecone and Gemini clients are parameters. */
module Registry {
  import opened Text
  import opened Errors
  import opened Resilience

  // ---------------------------------------------------------------------------
  // State
  // ---------------------------------------------------------------------------

  /** A client object the registry holds, with the settings it is built with. */
  datatype Handle =
    | PineconeClient(poolThreads: nat)
    | EmbeddingsClient(model: string, requestTimeout: Millis)
    | ChatClient(model: string, temperature: int, requestTimeout: Millis)

  const IndexName := "hackrx-query-index"
  const PineconeHandle := PineconeClient(4)
  const EmbeddingsHandle := EmbeddingsClient("models/embedding-001", LlmEmbeddingTimeout)
  const ChatHandle := ChatClient("gemini-2.5-flash", 0, LlmGenerationTimeout)

  datatype Registry = Registry(pinecone: Option<Handle>, embeddings: Option<Handle>, llm: Option<Handle>,
                               indexName: string)

  /** The state the constructor leaves: no handles yet. */
  const Fresh := Registry(None, None, None, IndexName)

  /** `is_initialized`: all three handles are present. */
  predicate IsInitialized(r: Registry) {
    r.pinecone.Some? && r.embeddings.Some? && r.llm.Some?
  }

  // ---------------------------------------------------------------------------
  // Singleton
  // ---------------------------------------------------------------------------

  /** The class-level slot holding the one instance, if any was built. */
  datatype Process = Process(instance: Option<Registry>)

  datatype Constructed = Constructed(process: Process, registry: Registry)

  /** `GlobalResources()`: the first call builds and stores a fresh instance;
      later calls return the stored one with its fields untouched. */
  function Construct(p: Process): (c: Constructed)
    ensures c.process.instance == Some(c.registry)
    ensures p.instance.Some? ==> c.registry == p.instance.value
    ensures p.instance.None? ==> c.registry == Fresh
  {
    match p.instance
    case Some(r) => Constructed(p, r)
    case None => Constructed(Process(Some(Fresh)), Fresh)
  }

  /** Constructing twice yields the same instance and changes nothing the second
      time, whatever the instance's handles were. */
  lemma ConstructTwiceSameInstance(p: Process)
    ensures Construct(Construct(p).process) == Construct(p)
    ensures Construct(Construct(p).process).registry == Construct(p).registry
  {
  }

  // ---------------------------------------------------------------------------
  // Accessors
  // ---------------------------------------------------------------------------

  /** `get_llm` */
  function GetLlm(r: Registry): (h: Result<Handle>)
    ensures h.Ok? <==> r.llm.Some?
    ensures h.Ok? ==> h.value == r.llm.value
    ensures h.Err? ==> h.error == ResourceInitialization("llm", "LLM not initialized. Call initialize() first.")
  {
    match r.llm
    case Some(c) => Ok(c)
    case None => Err(ResourceInitialization("llm", "LLM not initialized. Call initialize() first."))
  }

  const EmbeddingsMissing := ResourceInitialization("embeddings", "Embeddings not initialized. Call initialize() first.")
  const PineconeMissing := ResourceInitialization("pinecone", "Pinecone client not initialized. Call initialize() first.")

  /** `get_embeddings` */
  function GetEmbeddings(r: Registry): (h: Result<Handle>)
    ensures h.Ok? <==> r.embeddings.Some?
    ensures h.Ok? ==> h.value == r.embeddings.value
    ensures h.Err? ==> h.error == EmbeddingsMissing
  {
    match r.embeddings
    case Some(c) => Ok(c)
    case None => Err(EmbeddingsMissing)
  }

  /** The two guards the vector-store accessors share, embeddings first, then the
      store call itself; every failure is re-raised as a VectorStoreError for
      `operation`. */
  function GuardedStore<S>(r: Registry, operation: string, store: Result<S>): (v: Result<S>)
    ensures v.Ok? <==> r.embeddings.Some? && r.pinecone.Some? && store.Ok?
    ensures v.Ok? ==> v == store
    ensures v.Err? ==> v.error.VectorStore? && v.error.operation == operation
    ensures r.embeddings.None? ==> v == Err(VectorStore(operation, Str(EmbeddingsMissing)))
    ensures r.embeddings.Some? && r.pinecone.None? ==> v == Err(VectorStore(operation, Str(PineconeMissing)))
    ensures r.embeddings.Some? && r.pinecone.Some? && store.Err? ==> v == Err(VectorStore(operation, Str(store.error)))
  {
    var raised :=
      if r.embeddings.None? then Err(EmbeddingsMissing)
      else if r.pinecone.None? then Err(PineconeMissing)
      else store;
    match raised
    case Ok(s) => Ok(s)
    case Err(e) => Err(VectorStore(operation, Str(e)))
  }

  /** `get_vector_store(texts)`; `fromDocuments` is what the store library's bulk
      constructor returned or raised. */
  function GetVectorStore<S>(r: Registry, fromDocuments: Result<S>): (v: Result<S>)
    ensures v.Ok? <==> r.embeddings.Some? && r.pinecone.Some? && fromDocuments.Ok?
    ensures v.Err? ==> v.error.VectorStore? && v.error.operation == "create_vector_store"
  {
    GuardedStore(r, "create_vector_store", fromDocuments)
  }

  /** `get_vector_store_from_existing_index`; `attach` is what the store
      constructor returned or raised. */
  function GetVectorStoreFromExistingIndex<S>(r: Registry, attach: Result<S>): (v: Result<S>)
    ensures v.Ok? <==> r.embeddings.Some? && r.pinecone.Some? && attach.Ok?
    ensures v.Err? ==> v.error.VectorStore? && v.error.operation == "get_existing_vector_store"
  {
    GuardedStore(r, "get_existing_vector_store", attach)
  }

  /** On a ready registry the accessors fail only when the client call itself
      fails. */
  lemma ReadyAccessorsSucceed<S>(r: Registry, store: Result<S>)
    requires IsInitialized(r)
    ensures GetLlm(r).Ok? && GetEmbeddings(r).Ok?
    ensures GetVectorStore(r, store).Ok? <==> store.Ok?
    ensures GetVectorStoreFromExistingIndex(r, store).Ok? <==> store.Ok?
  {
  }

  // ---------------------------------------------------------------------------
  // Health
  // ---------------------------------------------------------------------------

  /** What `health_check` returns. */
  datatype Health = Health(overallHealthy: bool, pinecone: HealthReport, embeddings: HealthReport,
                           llm: HealthReport, initialized: bool)

  /** The probe a component's health check awaits: it raises at once when the
      handle is missing, and otherwise does what the client call did. */
  function Probe(handle: Option<Handle>, missing: string, call: Completion<()>): (c: Completion<()>)
    ensures handle.None? ==> c == Finished(Err(Builtin("Exception", missing)))
    ensures handle.Some? ==> c == call
  {
    if handle.None? then Finished(Err(Builtin("Exception", missing))) else call
  }

  /** `health_check` given what each client probe did and how long each one took
      (the probes run one after another, each timed on its own). */
  function HealthCheck(r: Registry, pineconeCall: Completion<()>, embeddingsCall: Completion<()>,
                       llmCall: Completion<()>, pineconeElapsed: real, embeddingsElapsed: real,
                       llmElapsed: real): (h: Health)
    ensures h.overallHealthy <==>
              h.pinecone.status == Healthy && h.embeddings.status == Healthy && h.llm.status == Healthy
    ensures h.initialized <==> IsInitialized(r)
    ensures r.pinecone.None? ==>
              h.pinecone.status == Unhealthy && h.pinecone.error == Some("Pinecone client not initialized")
    ensures r.embeddings.None? ==>
              h.embeddings.status == Unhealthy && h.embeddings.error == Some("Embeddings not initialized")
    ensures r.llm.None? ==> h.llm.status == Unhealthy && h.llm.error == Some("LLM not initialized")
    ensures h.pinecone.service == "pinecone" && h.embeddings.service == "embeddings" && h.llm.service == "llm"
    ensures h.pinecone.status == Healthy ==> h.pinecone.responseTime == Some(pineconeElapsed)
    ensures h.embeddings.status == Healthy ==> h.embeddings.responseTime == Some(embeddingsElapsed)
    ensures h.llm.status == Healthy ==> h.llm.responseTime == Some(llmElapsed)
  {
    var p := CheckExternalServiceHealth("pinecone", Probe(r.pinecone, "Pinecone client not initialized", pineconeCall),
                                        pineconeElapsed);
    var e := CheckExternalServiceHealth("embeddings", Probe(r.embeddings, "Embeddings not initialized", embeddingsCall),
                                        embeddingsElapsed);
    var l := CheckExternalServiceHealth("llm", Probe(r.llm, "LLM not initialized", llmCall), llmElapsed);
    Health(p.status == Healthy && e.status == Healthy && l.status == Healthy, p, e, l, IsInitialized(r))
  }

  /** An overall healthy report implies the registry is initialised, and on an
      initialised registry the report is healthy exactly when all three client
      probes finished without raising. */
  lemma HealthyImpliesInitialized(r: Registry, pineconeCall: Completion<()>, embeddingsCall: Completion<()>,
                                  llmCall: Completion<()>, pineconeElapsed: real, embeddingsElapsed: real,
                                  llmElapsed: real)
    ensures var h := HealthCheck(r, pineconeCall, embeddingsCall, llmCall, pineconeElapsed, embeddingsElapsed, llmElapsed);
            h.overallHealthy ==> h.initialized
    ensures IsInitialized(r) ==>
              (HealthCheck(r, pineconeCall, embeddingsCall, llmCall, pineconeElapsed, embeddingsElapsed,
                           llmElapsed).overallHealthy <==>
                 && pineconeCall.Finished? && pineconeCall.outcome.Ok?
                 && embeddingsCall.Finished? && embeddingsCall.outcome.Ok?
                 && llmCall.Finished? && llmCall.outcome.Ok?)
  {
  }

  // ---------------------------------------------------------------------------
  // Index setup
  // ---------------------------------------------------------------------------

  /** The index `_ensure_index_exists` asks Pinecone to create. */
  datatype IndexSpec = IndexSpec(name: string, dimension: nat, metric: string, cloud: string, region: string)

  const QueryIndexSpec := IndexSpec(IndexName, 768, "cosine", "aws", "us-east-1")
  const IndexSettleTime: Millis := 10000

  /** The outcome of index setup, the create request it sent (if any) and how
      long it then slept. */
  datatype IndexSetup = IndexSetup(result: Result<()>, created: Option<IndexSpec>, settle: Millis)

  /** `_ensure_index_exists` after `describe_index` returned or raised `describe`
      and, if it was called, `create_index` returned or raised `create`. */
  function EnsureIndexExists(describe: Result<()>, create: Result<()>): (s: IndexSetup)
    ensures describe.Ok? ==> s == IndexSetup(Ok(()), None, 0)
    ensures describe.Err? ==> s.created == Some(QueryIndexSpec) && s.result == create
    ensures s.settle > 0 <==> describe.Err? && create.Ok?
    ensures s.settle > 0 ==> s.settle == IndexSettleTime
    ensures s.result.Ok? <==> describe.Ok? || create.Ok?
  {
    if describe.Ok? then IndexSetup(Ok(()), None, 0)
    else if create.Ok? then IndexSetup(create, Some(QueryIndexSpec), IndexSettleTime)
    else IndexSetup(create, Some(QueryIndexSpec), 0)
  }

  // ---------------------------------------------------------------------------
  // Start-up of each handle
  // ---------------------------------------------------------------------------

  /** Python `not os.getenv(name)` is false: the variable is set and not empty. */
  predicate KeySet(key: Option<string>) {
    key.Some? && |key.value| > 0
  }

  /** The error an `_initialize_*` method raises when its API key is missing: its
      own ResourceInitializationError, caught by its `except Exception` and
      wrapped once more. */
  function MissingKey(resource: string, variable: string): (e: Exc)
    ensures e.ResourceInitialization? && e.resource == resource
  {
    ResourceInitialization(resource, Str(ResourceInitialization(resource, variable + " environment variable is required")))
  }

  /** One attempt of `_initialize_pinecone`: the key check, then index setup under
      its own wait. */
  function PineconeAttempt(key: Option<string>, describe: Result<()>, create: Result<()>): (r: Result<()>)
    ensures !KeySet(key) ==> r == Err(MissingKey("pinecone", "PINECONE_API_KEY"))
    ensures KeySet(key) ==> (r.Ok? <==> EnsureIndexExists(describe, create).result.Ok?)
    ensures r.Err? ==> r.error.ResourceInitialization? || r.error == Timeout("pinecone_initialization", PineconeConnectTimeout)
  {
    if !KeySet(key) then Err(MissingKey("pinecone", "PINECONE_API_KEY"))
    else
      match EnsureIndexExists(describe, create).result
      case Ok(_) => Ok(())
      case Err(AsyncTimeout) => Err(Timeout("pinecone_initialization", PineconeConnectTimeout))
      case Err(e) => Err(ResourceInitialization("pinecone", Str(e)))
  }

  /** One attempt of `_initialize_embeddings` or `_initialize_llm`: the key check,
      then the test call, whose asyncio timeout becomes a TimeoutError for
      `testOperation` and whose other failures an ExternalServiceError, both
      wrapped as a ResourceInitializationError for `resource`. */
  function GoogleAttempt(resource: string, testOperation: string, testLimit: Millis,
                         key: Option<string>, test: Result<()>): (r: Result<()>)
    ensures !KeySet(key) ==> r == Err(MissingKey(resource, "GOOGLE_API_KEY"))
    ensures KeySet(key) ==> (r.Ok? <==> test.Ok?)
    ensures KeySet(key) && test == Err(AsyncTimeout) ==>
              r == Err(ResourceInitialization(resource, Str(Timeout(testOperation, testLimit))))
    ensures KeySet(key) && test.Err? && test.error != AsyncTimeout ==>
              r == Err(ResourceInitialization(resource, Str(ExternalService(resource, Str(test.error)))))
    ensures r.Err? ==> r.error.ResourceInitialization? && r.error.resource == resource
  {
    if !KeySet(key) then Err(MissingKey(resource, "GOOGLE_API_KEY"))
    else
      match test
      case Ok(_) => Ok(())
      case Err(AsyncTimeout) => Err(ResourceInitialization(resource, Str(Timeout(testOperation, testLimit))))
      case Err(e) => Err(ResourceInitialization(resource, Str(ExternalService(resource, Str(e)))))
  }

  /** The start-up decorators shared by the three handles: three retries on any
      exception with the given backoff, all under one deadline. */
  const RetriedOnAnything: seq<ExcClass> := [AnyException]

  function StartUp(attempt: nat -> Result<()>, backoff: Millis, limit: Millis, operation: string,
                   expired: bool): (r: Result<()>)
    ensures expired ==> r == Err(Timeout(operation, limit))
    ensures r.Err? ==> r.error == Timeout(operation, limit) || exists a: nat :: a <= 3 && attempt(a) == r
  {
    WithTimeout(if expired then Expired else Finished(Retry(attempt, 3, backoff, RetriedOnAnything).result),
                limit, operation)
  }

  /** What the outside world does during `initialize`: the two API keys, what each
      client call returns or raises on each attempt, and which of the three
      start-up deadlines pass. */
  datatype InitEnv = InitEnv(pineconeKey: Option<string>, googleKey: Option<string>,
                             describe: nat -> Result<()>, create: nat -> Result<()>,
                             embeddingsTest: nat -> Result<()>, llmTest: nat -> Result<()>,
                             pineconeExpired: bool, embeddingsExpired: bool, llmExpired: bool)

  /** What each attempt of `_initialize_pinecone` returns or raises. */
  function PineconeAttempts(env: InitEnv): nat -> Result<()> {
    (a: nat) => PineconeAttempt(env.pineconeKey, env.describe(a), env.create(a))
  }

  /** What each attempt of `_initialize_embeddings` returns or raises. */
  function EmbeddingsAttempts(env: InitEnv): nat -> Result<()> {
    (a: nat) => GoogleAttempt("embeddings", "embeddings_test", LlmEmbeddingTimeout, env.googleKey, env.embeddingsTest(a))
  }

  /** What each attempt of `_initialize_llm` returns or raises. */
  function LlmAttempts(env: InitEnv): nat -> Result<()> {
    (a: nat) => GoogleAttempt("llm", "llm_test", LlmGenerationTimeout, env.googleKey, env.llmTest(a))
  }

  const PineconeBackoff: Millis := 2000
  const GoogleBackoff: Millis := 1500

  /** `_initialize_pinecone_with_retry` */
  function StartPinecone(env: InitEnv): (r: Result<()>)
    ensures r.Err? ==> r.error.ResourceInitialization? || r.error.Timeout?
  {
    var attempt := PineconeAttempts(env);
    assert forall a: nat :: attempt(a) == PineconeAttempt(env.pineconeKey, env.describe(a), env.create(a));
    StartUp(attempt, PineconeBackoff, PineconeConnectTimeout, "pinecone_initialization", env.pineconeExpired)
  }

  /** `_initialize_embeddings_with_retry` */
  function StartEmbeddings(env: InitEnv): (r: Result<()>)
    ensures r.Err? ==> r.error.ResourceInitialization? || r.error == Timeout("embeddings_initialization", LlmEmbeddingTimeout)
  {
    var attempt := EmbeddingsAttempts(env);
    assert forall a: nat :: attempt(a) == GoogleAttempt("embeddings", "embeddings_test", LlmEmbeddingTimeout, env.googleKey, env.embeddingsTest(a));
    StartUp(attempt, GoogleBackoff, LlmEmbeddingTimeout, "embeddings_initialization", env.embeddingsExpired)
  }

  /** `_initialize_llm_with_retry` */
  function StartLlm(env: InitEnv): (r: Result<()>)
    ensures r.Err? ==> r.error.ResourceInitialization? || r.error == Timeout("llm_initialization", LlmGenerationTimeout)
  {
    var attempt := LlmAttempts(env);
    assert forall a: nat :: attempt(a) == GoogleAttempt("llm", "llm_test", LlmGenerationTimeout, env.googleKey, env.llmTest(a));
    StartUp(attempt, GoogleBackoff, LlmGenerationTimeout, "llm_initialization", env.llmExpired)
  }

  /** Without a Pinecone key every attempt fails the same way: the retry loop
      makes all four attempts, and unless the deadline passes first the wrapped
      ResourceInitializationError is raised. */
  lemma MissingPineconeKey(env: InitEnv)
    requires !KeySet(env.pineconeKey)
    ensures Retry(PineconeAttempts(env), 3, PineconeBackoff, RetriedOnAnything).calls == 4
    ensures !env.pineconeExpired ==> StartPinecone(env) == Err(MissingKey("pinecone", "PINECONE_API_KEY"))
  {
    var op := PineconeAttempts(env);
    forall a: nat | a <= 3 ensures op(a) == Err(MissingKey("pinecone", "PINECONE_API_KEY")) &&
                                   Catches(RetriedOnAnything, op(a).error) {
      assert op(a) == PineconeAttempt(env.pineconeKey, env.describe(a), env.create(a));
      assert IsInstance(op(a).error, RetriedOnAnything[0]);
    }
    RetryExhausted(op, 3, PineconeBackoff, RetriedOnAnything);
  }

  /** Without a Google key the embeddings start-up makes all four attempts and
      runs out of retries. */
  lemma MissingGoogleKeyEmbeddings(env: InitEnv)
    requires !KeySet(env.googleKey)
    ensures Retry(EmbeddingsAttempts(env), 3, GoogleBackoff, RetriedOnAnything).calls == 4
    ensures !env.embeddingsExpired ==> StartEmbeddings(env) == Err(MissingKey("embeddings", "GOOGLE_API_KEY"))
  {
    var e := EmbeddingsAttempts(env);
    forall a: nat | a <= 3 ensures e(a) == Err(MissingKey("embeddings", "GOOGLE_API_KEY")) &&
                                   Catches(RetriedOnAnything, e(a).error) {
      assert e(a) == GoogleAttempt("embeddings", "embeddings_test", LlmEmbeddingTimeout, env.googleKey, env.embeddingsTest(a));
      assert IsInstance(e(a).error, RetriedOnAnything[0]);
    }
    RetryExhausted(e, 3, GoogleBackoff, RetriedOnAnything);
  }

  /** Without a Google key the model start-up makes all four attempts and runs
      out of retries. */
  lemma MissingGoogleKeyLlm(env: InitEnv)
    requires !KeySet(env.googleKey)
    ensures Retry(LlmAttempts(env), 3, GoogleBackoff, RetriedOnAnything).calls == 4
    ensures !env.llmExpired ==> StartLlm(env) == Err(MissingKey("llm", "GOOGLE_API_KEY"))
  {
    var l := LlmAttempts(env);
    forall a: nat | a <= 3 ensures l(a) == Err(MissingKey("llm", "GOOGLE_API_KEY")) &&
                                   Catches(RetriedOnAnything, l(a).error) {
      assert l(a) == GoogleAttempt("llm", "llm_test", LlmGenerationTimeout, env.googleKey, env.llmTest(a));
      assert IsInstance(l(a).error, RetriedOnAnything[0]);
    }
    RetryExhausted(l, 3, GoogleBackoff, RetriedOnAnything);
  }

  /** A missing API key fails every one of the four attempts the same way, so
      the retries run out and (unless the deadline passes first) start-up raises
      the wrapped ResourceInitializationError for that resource. */
  lemma MissingKeyFailsStartUp(env: InitEnv)
    ensures !KeySet(env.pineconeKey) ==>
              Retry(PineconeAttempts(env), 3, PineconeBackoff, RetriedOnAnything).calls == 4
    ensures !KeySet(env.pineconeKey) && !env.pineconeExpired ==>
              StartPinecone(env) == Err(MissingKey("pinecone", "PINECONE_API_KEY"))
    ensures !KeySet(env.googleKey) ==>
              Retry(EmbeddingsAttempts(env), 3, GoogleBackoff, RetriedOnAnything).calls == 4 &&
              Retry(LlmAttempts(env), 3, GoogleBackoff, RetriedOnAnything).calls == 4
    ensures !KeySet(env.googleKey) && !env.embeddingsExpired ==>
              StartEmbeddings(env) == Err(MissingKey("embeddings", "GOOGLE_API_KEY"))
    ensures !KeySet(env.googleKey) && !env.llmExpired ==>
              StartLlm(env) == Err(MissingKey("llm", "GOOGLE_API_KEY"))
  {
    if !KeySet(env.pineconeKey) {
      MissingPineconeKey(env);
    }
    if !KeySet(env.googleKey) {
      MissingGoogleKeyEmbeddings(env);
      MissingGoogleKeyLlm(env);
    }
  }

  // ---------------------------------------------------------------------------
  // initialize
  // ---------------------------------------------------------------------------

  datatype Initialized = Initialized(registry: Registry, result: Result<()>)

  const NotAllReady := ResourceInitialization("global_resources", "One or more resources failed to initialize properly")

  /** The outcome of `initialize` once the three start-ups have produced `p`,
      `e` and `l` and left `after`: the first failure in listing order, or a
      handle still missing, is re-raised by the start-up error handler for
      "global_resources". */
  function Conclude(after: Registry, p: Result<()>, e: Result<()>, l: Result<()>): (out: Initialized)
    ensures out.registry == after
    ensures out.result.Ok? <==> p.Ok? && e.Ok? && l.Ok? && IsInitialized(after)
    ensures p.Err? ==> out.result == Err(HandleStartupError(p.error, "global_resources"))
    ensures p.Ok? && e.Err? ==> out.result == Err(HandleStartupError(e.error, "global_resources"))
    ensures p.Ok? && e.Ok? && l.Err? ==> out.result == Err(HandleStartupError(l.error, "global_resources"))
    ensures out.result.Err? ==> out.result.error.ResourceInitialization? &&
                                out.result.error.resource == "global_resources"
  {
    var failure :=
      if p.Err? then Some(p.error)
      else if e.Err? then Some(e.error)
      else if l.Err? then Some(l.error)
      else if !IsInitialized(after) then Some(NotAllReady)
      else None;
    match failure
    case Some(x) => Initialized(after, Err(HandleStartupError(x, "global_resources")))
    case None => Initialized(after, Ok(()))
  }

  /** `initialize` as written: each `_initialize_*` stores its client before the
      connectivity test, so a handle is set whenever its API key is, whether or
      not the test (and start-up) then succeeds; a missing key leaves the slot as
      it was. */
  function InitializeAsWritten(r: Registry, env: InitEnv): (out: Initialized)
    ensures out.result.Ok? <==> StartPinecone(env).Ok? && StartEmbeddings(env).Ok? && StartLlm(env).Ok? &&
                                IsInitialized(out.registry)
    ensures KeySet(env.pineconeKey) && KeySet(env.googleKey) ==> IsInitialized(out.registry)
  {
    var after := Registry(if KeySet(env.pineconeKey) then Some(PineconeHandle) else r.pinecone,
                          if KeySet(env.googleKey) then Some(EmbeddingsHandle) else r.embeddings,
                          if KeySet(env.googleKey) then Some(ChatHandle) else r.llm,
                          r.indexName);
    Conclude(after, StartPinecone(env), StartEmbeddings(env), StartLlm(env))
  }

  /** A start-up whose index setup fails on every attempt while both keys are
      set and no deadline passes. */
  function IndexFailureEnv(): (env: InitEnv)
    ensures KeySet(env.pineconeKey) && KeySet(env.googleKey)
  {
    InitEnv(Some("key"), Some("key"),
            a => Err(Builtin("NotFoundException", "index not found")),
            a => Err(Builtin("PineconeApiException", "quota exceeded")),
            a => Ok(()), a => Ok(()), false, false, false)
  }

  /** As written, `initialize` can fail and still leave the registry reporting
      itself initialised: with both keys set and index creation failing, every
      handle was stored before the failure. */
  lemma AsWrittenReadyAfterFailedInitialize()
    ensures var out := InitializeAsWritten(Fresh, IndexFailureEnv());
            out.result.Err? && IsInitialized(out.registry)
  {
    var env := IndexFailureEnv();
    var op := PineconeAttempts(env);
    var e := ResourceInitialization("pinecone", Str(Builtin("PineconeApiException", "quota exceeded")));
    forall a: nat | a <= 3 ensures op(a) == Err(e) && Catches(RetriedOnAnything, op(a).error) {
      assert op(a) == PineconeAttempt(env.pineconeKey, env.describe(a), env.create(a));
      assert EnsureIndexExists(env.describe(a), env.create(a)).result == Err(Builtin("PineconeApiException", "quota exceeded"));
      assert IsInstance(op(a).error, RetriedOnAnything[0]);
    }
    RetryExhausted(op, 3, PineconeBackoff, RetriedOnAnything);
    assert StartPinecone(env).Err?;
  }

  /** `initialize` with each handle published only once its start-up succeeded:
      readiness then coincides with a successful `initialize`. */
  function Initialize(r: Registry, env: InitEnv): (out: Initialized)
    ensures out.result.Ok? <==> StartPinecone(env).Ok? && StartEmbeddings(env).Ok? && StartLlm(env).Ok?
    ensures IsInitialized(out.registry) <==> out.result.Ok?
    ensures out.result.Err? ==> out.result.error.ResourceInitialization? &&
                                out.result.error.resource == "global_resources"
  {
    var p := StartPinecone(env);
    var e := StartEmbeddings(env);
    var l := StartLlm(env);
    var after := Registry(if p.Ok? then Some(PineconeHandle) else None,
                          if e.Ok? then Some(EmbeddingsHandle) else None,
                          if l.Ok? then Some(ChatHandle) else None,
                          r.indexName);
    Conclude(after, p, e, l)
  }

  /** The error `initialize` raises is the start-up error handler's wrap of the
      first failing start-up, in listing order. */
  lemma InitializeReportsFirstFailure(r: Registry, env: InitEnv)
    ensures StartPinecone(env).Err? ==>
              Initialize(r, env).result == Err(HandleStartupError(StartPinecone(env).error, "global_resources"))
    ensures StartPinecone(env).Ok? && StartEmbeddings(env).Err? ==>
              Initialize(r, env).result == Err(HandleStartupError(StartEmbeddings(env).error, "global_resources"))
    ensures StartPinecone(env).Ok? && StartEmbeddings(env).Ok? && StartLlm(env).Err? ==>
              Initialize(r, env).result == Err(HandleStartupError(StartLlm(env).error, "global_resources"))
  {
  }
}
