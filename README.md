# Configuration-scoped chatbot back-ends, modelled in Dafny

The sample chatbot back-ends of this repository share one layer that holds
real logic. It decides what to build, when to reuse it, and how to put
process state back afterwards:

- **Override validation and the scoped environment.** A request's
  environment overrides are filtered against a four-variable allow-list.
  They are put into `os.environ` for the length of the request and
  restored on every exit path (`EnvManager`).
- **The component cache.** A TTL cache is keyed by a fingerprint of the
  overrides: the first 16 hex digits of SHA-256 over the key-sorted JSON
  text of the items, or `"default"` (`SessionManager`). The Arize chatbot
  uses it to reuse a built component bundle (`ArizeBackend`).
- **The telemetry manager.** One OpenTelemetry tracer provider, with its
  span processor and LangChain instrumentor. It is configured from a
  `TracerConfig` and, when it records the headers variable in the
  environment, torn down again by `shutdown` (`Instrumentation`).
- **The back-ends' initialization.** `has_valid_arize_config`'s
  override-first credential resolution, then shutdown-then-configure of the
  manager, are shared by the 10-K, ethernet-adapter and Mustang back-ends
  (`Backend`, `LlamaBackend`) and by the LangGraph back-end
  (`LanggraphBackend`). The Assurant back-end initializes once, behind a
  flag (`AssurantBackend`).
- **The index managers.** They load a persisted vector index or rebuild it
  from source PDFs, under a three-attempt retry (`Storage`). There are four
  rules:
  - the Mustang manual bot checks for missing, empty or stale index files
    (`MustangIndex`);
  - the 10-K bot loads whatever is stored (`TenKIndex`);
  - the Assurant bot always rebuilds, falling back to a placeholder
    document (`AssurantIndex`);
  - the OSHA bot always rebuilds, from both required files (`OshaIndex`).

  The Mustang back-end's admin endpoints rebuild the index or report its
  status (`MustangBackend`).
- **The classifiers.** Code-fence stripping of the LLM's JSON reply, the
  category enums, and the three RAG context slots (`Classification`,
  `OshaClassifier`, `MustangClassifier`). Also the risk-score banding tool
  (`RiskTools`).

How the model is built:

- `os.environ` is a `map<string, string>` field of a `ProcessEnv.Environment`
  object.
- A Python dict is a sequence of key/value pairs with distinct keys
  (`Dicts`). Iteration order matters to the setting loop of
  `temporary_env_vars`.
- Files are a map from name to `(st_size, st_mtime)`, with times as integers.
- Every external constructor or call is an opaque value that may fail. This
  covers OpenTelemetry, LlamaIndex, OpenAI, Bedrock, LangGraph streaming and
  `json.loads`. The method or function is told, as a parameter, which step
  raises.
- Clocks become parameters: `datetime.now()` readings are integer
  microseconds, and `uuid4()` is a fresh id passed in. SHA-256 with
  `json.dumps` is a `digest` function fixed when the session manager is
  built.
- Each imperative operation is a `method` (a loop or a state change). It is
  proved equal to a specification function of the old state. The
  properties are lemmas about those functions.

Three pairs of core files are identical copies, and each pair is modelled
once:

- `ethernet-adapter-chatbot/backend/main.py` and
  `10-k-chatbot/backend/main.py`;
- `osha-chatbot/src/llamaindex_app/classifier.py` and
  `osha-chatbot-v2/src/llamaindex_app/classifier.py`;
- `ethernet-adapter-chatbot/src/llamaindex_app/tools.py` and
  `airlines-chatbot/src/llamaindex_app/tools.py`.

## Model

| member | source | states |
|---|---|---|
| Outcomes.Lookup | arize-chatbot/backend/utils/env_manager.py:34 | `os.environ.get(key)`: `Some` exactly for a present key, holding its value |
| ProcessEnv.PutEnvAccepts | arize-chatbot/backend/utils/env_manager.py:34-36 | which `os.environ[key] = value` assignments succeed: a non-empty name with no "=" and no NUL in name or value |
| Dicts.Get | mustang_manual_bot/backend/main.py:87-88 | `d.get(k)` is `Some` exactly when the key is present, with the value stored under it |
| Dicts.ToMap | langgraph-fin-agent/backend/utils/session_manager.py:22 | `dict(items)` has exactly the keys of the items and their values |
| EnvManager.Filter | arize-chatbot/backend/utils/env_manager.py:77-81 | survivors are allowed keys with a non-blank value, taken unchanged from the input, and keep distinct keys |
| EnvManager.FilterKeepsExactly | arize-chatbot/backend/utils/env_manager.py:77-81 | an item is kept if and only if its key is allowed and its value is present and not blank |
| EnvManager.FilterConcat | arize-chatbot/backend/utils/env_manager.py:77-81 | filtering splits over concatenation, so the survivors keep their input order |
| EnvManager.FilterEmpty | arize-chatbot/backend/utils/env_manager.py:80-83 | nothing survives exactly when no item passes the filter |
| EnvManager.ValidateEnvOverrides | arize-chatbot/backend/utils/env_manager.py:53-83 | `None` and `{}` give `None`; a result is the non-empty filtered dict; `None` from a dict means no item passed |
| EnvManager.AsOverrides | arize-chatbot/backend/utils/env_manager.py:32-36 | a validated dict handed to the scope has every item valued, so the `value is not None` test skips none: the keys the scope assigns and records are exactly the validated keys, in order |
| EnvManager.TouchedAllValued | arize-chatbot/backend/utils/env_manager.py:32-36 | when every item has a value, the keys the setting loop records are all the keys, in order |
| EnvManager.AsOverridesUnique | arize-chatbot/backend/utils/env_manager.py:32 | a validated dict passed on keeps distinct keys |
| EnvManager.StopAt | arize-chatbot/backend/utils/env_manager.py:32-36 | the setting loop reaches the first item whose assignment `os.environ` refuses, and every earlier item is accepted |
| EnvManager.Touched | arize-chatbot/backend/utils/env_manager.py:33-35 | `variables_to_restore` holds exactly the keys given a non-`None` value |
| EnvManager.Originals | arize-chatbot/backend/utils/env_manager.py:34 | `original_values` records, for each touched key, its value before the call, or `None` when unset |
| EnvManager.AppliedLookup | arize-chatbot/backend/utils/env_manager.py:32-37 | inside the body, a key with a value holds the override and every other key keeps its prior state |
| EnvManager.RestoreLookup | arize-chatbot/backend/utils/env_manager.py:43-50 | after the `finally` loop, a restored key holds its recorded value or is absent, and all other keys are as the body left them |
| EnvManager.MapsEqualByLookup | arize-chatbot/backend/utils/env_manager.py:43-50 | two environments that agree on every lookup are equal |
| EnvManager.ExitRestoresTouched | arize-chatbot/backend/utils/env_manager.py:30-50 | whatever the body did, every key recorded by entry gets back its value from before the call, or is absent if it was absent |
| EnvManager.EnterExitRoundTrip | arize-chatbot/backend/utils/env_manager.py:14-50 | when the body leaves the environment alone, entry then exit is the identity, also after a refused assignment |
| EnvManager.ExitRestoresAllBut | arize-chatbot/backend/utils/env_manager.py:32-50 | if the body changes only variable `h`, exit restores every other variable |
| EnvManager.EnterStep | arize-chatbot/backend/utils/env_manager.py:32-37 | one turn of the setting loop extends the recorded keys and the environment by that item |
| EnvManager.OriginalsExtend | arize-chatbot/backend/utils/env_manager.py:34-35 | recording one more key adds exactly its current value |
| EnvManager.Enter | arize-chatbot/backend/utils/env_manager.py:21-37 | without overrides nothing changes; otherwise the environment and the recorded scope are those of the setting loop, and `failed` holds exactly when an assignment was refused |
| EnvManager.Exit | arize-chatbot/backend/utils/env_manager.py:41-50 | the environment becomes the restoration of the recorded keys |
| EnvManager.EnterScopeWellFormed | arize-chatbot/backend/utils/env_manager.py:34-35 | every recorded key has a recorded original value |
| SessionManager.ConsSorted | langgraph-fin-agent/backend/utils/session_manager.py:22 | prefixing a key below every key keeps the list key-sorted |
| SessionManager.InsertByKey | langgraph-fin-agent/backend/utils/session_manager.py:22 | the insertion step of the sort yields a key-sorted list with exactly the old items plus the new one |
| SessionManager.SortByKey | langgraph-fin-agent/backend/utils/session_manager.py:22-23 | `sorted(env_vars.items())` is key-sorted, of the same length, with the same items |
| SessionManager.SortedTail | langgraph-fin-agent/backend/utils/session_manager.py:22 | the tail of a key-sorted list holds every item but the head |
| SessionManager.SortedUnique | langgraph-fin-agent/backend/utils/session_manager.py:21-23 | two key-sorted item lists with the same items are the same list, so the canonical text is unique |
| SessionManager.FreshIffNotExpired | langgraph-fin-agent/backend/utils/session_manager.py:36-60 | the lookup's `<` test and the cleanup's `>=` test are exact complements, at the boundary too |
| SessionManager.Live | langgraph-fin-agent/backend/utils/session_manager.py:55-65 | cleanup keeps exactly the entries that are not expired, unchanged |
| SessionManager.LookupSpec | langgraph-fin-agent/backend/utils/session_manager.py:28-44 | what `get_cached_components` returns for a key and the cache it leaves: the bundle and the same cache on a fresh hit, otherwise nothing and the key removed |
| SessionManager.StoreSpec | langgraph-fin-agent/backend/utils/session_manager.py:46-65 | what `cache_components` leaves: the entry `(components, now)` stored under the key, then only the unexpired entries kept |
| SessionManager.StoreKeepsExactlyYoung | langgraph-fin-agent/backend/utils/session_manager.py:46-65 | after a store, no entry of age ttl or more remains, every younger one does, and so does the new one when it is still young at cleanup |
| SessionManager.StoreThenLookup | langgraph-fin-agent/backend/utils/session_manager.py:28-53 | a later lookup of a just-stored bundle, while it is fresh, returns that bundle and leaves the cache alone |
| SessionManager.CleanupIdempotent | langgraph-fin-agent/backend/utils/session_manager.py:55-65 | cleaning up twice at the same time removes nothing more |
| SessionManager.LookupMissRemovesOnlyKey | langgraph-fin-agent/backend/utils/session_manager.py:32-44 | a lookup that returns `None` deletes at most the entry it looked at, and an absent key changes nothing |
| SessionManager.SessionManager.constructor | langgraph-fin-agent/backend/utils/session_manager.py:12-14 | an empty cache with a ttl of the given minutes |
| SessionManager.SessionManager.CacheKey | langgraph-fin-agent/backend/utils/session_manager.py:16-26 | `"default"` exactly for `None` or `{}`; otherwise the first 16 characters of the digest of the key-sorted items |
| SessionManager.SessionManager.KeyIgnoresOrder | langgraph-fin-agent/backend/utils/session_manager.py:21-26 | dicts with the same items, in any insertion order, get the same key |
| SessionManager.SessionManager.KeyIsHex | langgraph-fin-agent/backend/utils/session_manager.py:18-26 | a key is `"default"` or lower-case hex, so no non-empty dict collides with the reserved key |
| SessionManager.SessionManager.GetCachedComponents | langgraph-fin-agent/backend/utils/session_manager.py:28-44 | returns the bundle of a fresh entry; deletes an expired one and returns `None`; `None` for an absent key |
| SessionManager.SessionManager.CacheComponents | langgraph-fin-agent/backend/utils/session_manager.py:46-53 | stores `(components, now)` under the key, replacing any earlier entry, then cleans up |
| SessionManager.SessionManager.CleanupExpiredCache | langgraph-fin-agent/backend/utils/session_manager.py:55-65 | the cache afterwards is its live part at that time |
| SessionManager.SessionManager.ClearCache | langgraph-fin-agent/backend/utils/session_manager.py:67-70 | the cache is empty |
| Instrumentation.WithCredentials | langgraph-fin-agent/langgraph_fin_agent/flexible_instrumentation.py:21-30 | a `TracerConfig` with explicit credentials takes the default endpoint and no extra attributes |
| Instrumentation.FromEnv | langgraph-fin-agent/langgraph_fin_agent/flexible_instrumentation.py:32-45 | credentials are the raw environment values, the model id defaults to "default_model" only when unset |
| Instrumentation.TraceAttributes | langgraph-fin-agent/langgraph_fin_agent/flexible_instrumentation.py:99-104 | the resource attributes: `{"model_id": model_id}` updated with the additional attributes when there are any |
| Instrumentation.ShutdownSpec | langgraph-fin-agent/langgraph_fin_agent/flexible_instrumentation.py:155-183 | `shutdown()` as a state change: no change when unconfigured or when a step raises, otherwise the reset manager and the recorded variable removed if present |
| Instrumentation.ConfigureSpec | langgraph-fin-agent/langgraph_fin_agent/flexible_instrumentation.py:60-124 | `configure()` as a state change: shutdown when configured, then `InstallSpec` on what the shutdown left |
| Instrumentation.InstallSpec | langgraph-fin-agent/langgraph_fin_agent/flexible_instrumentation.py:74-124 | the steps after the opening shutdown: the credential check, the headers variable or exporter headers, provider, processor, instrumentor, then the flag |
| Instrumentation.TemporaryConfigSpec | langgraph-fin-agent/langgraph_fin_agent/flexible_instrumentation.py:189-212 | `temporary_config`: configure, then the `finally` shutdown, with the configure result |
| Instrumentation.TraceAttributesOverride | langgraph-fin-agent/langgraph_fin_agent/flexible_instrumentation.py:99-104 | the attributes hold "model_id", from the additional attributes when they name it; every additional attribute is kept and nothing else is added |
| Instrumentation.GetTracerSpec | langgraph-fin-agent/langgraph_fin_agent/flexible_instrumentation.py:128-141 | `None` exactly when there is no provider, whatever the flag says; otherwise a tracer of that name on the provider |
| Instrumentation.ShutdownResets | langgraph-fin-agent/langgraph_fin_agent/flexible_instrumentation.py:157-183 | unconfigured, or with a raising step, nothing changes; otherwise every field is reset and only the recorded variable is removed |
| Instrumentation.ConfigureSucceeds | langgraph-fin-agent/langgraph_fin_agent/flexible_instrumentation.py:61-126 | success if and only if the credentials are non-empty, no step raises and the headers variable is accepted; then the manager is configured, holds the returned provider with the configured attributes and one more processor, and `get_tracer` is not `None` |
| Instrumentation.ConfigureHeaders | langgraph-fin-agent/langgraph_fin_agent/flexible_instrumentation.py:80-97 | with env headers, the variable holds "space_id=...,api_key=..." and is recorded, and the exporter gets no headers; without, the environment is untouched and the exporter gets the header pairs |
| Instrumentation.ConfigureRejectsMissingCredentials | langgraph-fin-agent/langgraph_fin_agent/flexible_instrumentation.py:71-78 | empty or missing credentials raise after the opening shutdown, leaving the manager unconfigured unless that shutdown failed |
| Instrumentation.ConfigureTouchesOnlyHeaders | langgraph-fin-agent/langgraph_fin_agent/flexible_instrumentation.py:71-171 | configure and its shutdown change no variable but the headers variable |
| Instrumentation.ConfigureKeepsTidy | langgraph-fin-agent/langgraph_fin_agent/flexible_instrumentation.py:72-112 | without faults, configure keeps a tidy manager tidy, holding at most one processor |
| Instrumentation.ConfigureFromResetHoldsOne | langgraph-fin-agent/langgraph_fin_agent/flexible_instrumentation.py:105-118 | configuring a reset manager leaves at most one processor whatever raises, and a tidy manager without faults |
| Instrumentation.ShutdownKeepsTidy | langgraph-fin-agent/langgraph_fin_agent/flexible_instrumentation.py:157-183 | shutdown keeps a tidy manager tidy |
| Instrumentation.InstrumentFailureLeaksProcessor | langgraph-fin-agent/langgraph_fin_agent/flexible_instrumentation.py:72-118 | a raising `instrument()` leaves an unconfigured manager with one processor, and the next configure then holds two |
| Instrumentation.ShutdownFailureLeaksProcessor | langgraph-fin-agent/langgraph_fin_agent/flexible_instrumentation.py:160-183 | a raising shutdown skips the reset, so the next configure holds two processors |
| Instrumentation.TemporaryConfigEndsUnconfigured | langgraph-fin-agent/langgraph_fin_agent/flexible_instrumentation.py:189-212 | `temporary_config` ends unconfigured when its final shutdown completes, and does not restore a prior configuration |
| Instrumentation.FlexibleInstrumentation.constructor | langgraph-fin-agent/langgraph_fin_agent/flexible_instrumentation.py:54-59 | all fields empty and unconfigured |
| Instrumentation.FlexibleInstrumentation.GetTracer | langgraph-fin-agent/langgraph_fin_agent/flexible_instrumentation.py:128-141 | agrees with `GetTracerSpec` on the object's fields |
| Instrumentation.FlexibleInstrumentation.Shutdown | langgraph-fin-agent/langgraph_fin_agent/flexible_instrumentation.py:157-183 | fields and environment become those of `ShutdownSpec` |
| Instrumentation.FlexibleInstrumentation.Configure | langgraph-fin-agent/langgraph_fin_agent/flexible_instrumentation.py:61-126 | fields, environment and result become those of `ConfigureSpec` |
| Instrumentation.FlexibleInstrumentation.Install | langgraph-fin-agent/langgraph_fin_agent/flexible_instrumentation.py:74-124 | fields, environment and result become those of `InstallSpec` |
| Instrumentation.FlexibleInstrumentation.Reconfigure | langgraph-fin-agent/langgraph_fin_agent/flexible_instrumentation.py:143-155 | exactly `configure`'s effect and result |
| Instrumentation.FlexibleInstrumentation.TemporaryConfig | langgraph-fin-agent/langgraph_fin_agent/flexible_instrumentation.py:189-212 | configure, then shut down on every path, as `TemporaryConfigSpec` |
| Instrumentation.SetupFlexibleInstrumentation | langgraph-fin-agent/langgraph_fin_agent/flexible_instrumentation.py:224-240 | configures the global manager with the given config, or the environment's with env headers |
| Backend.Sources | 10-k-chatbot/backend/main.py:235-240 | `None` without source nodes; otherwise one entry per node, in order, its "file_name" or "Unknown source"; the same at arize-chatbot/backend/main.py:144-149 |
| Backend.SessionId | arize-chatbot/backend/main.py:130 | `request.session_id or str(uuid.uuid4())`: a non-empty requested id is kept, otherwise the fresh id; the result is empty only when both are |
| Backend.Respond | 10-k-chatbot/backend/main.py:223-248 | the only error is 500; a response is returned exactly when the interaction returned a response and no error text, with its text and the session id; the same at ethernet-adapter-chatbot/backend/main.py:223-248 |
| Backend.ErrorTextBecomesInternalError | 10-k-chatbot/backend/main.py:232-248 | an error text raises 400 inside the `try`, which the handler turns into 500; the same at mustang_manual_bot/backend/main.py:204-222, assurant-chatbot/backend/main.py:113-131, arize-chatbot/backend/main.py:141-159 |
| Backend.Resolve | 10-k-chatbot/backend/main.py:98-103 | `get_non_empty_value` always returns a stripped string |
| Backend.HasValidArizeConfig | mustang_manual_bot/backend/main.py:77-102 | the three values are stripped, and the config is valid exactly when space id and api key are both non-empty; the same at 10-k-chatbot/backend/main.py:98-117, ethernet-adapter-chatbot/backend/main.py:98-117, langgraph-fin-agent/backend/main.py:42-57 |
| Backend.ValidIffCredentialsAvailable | 10-k-chatbot/backend/main.py:98-117 | each value is the stripped override when that is non-blank, else the stripped environment value; valid if and only if both credentials are available; the same at mustang_manual_bot/backend/main.py:87-102, langgraph-fin-agent/backend/main.py:42-57, ethernet-adapter-chatbot/backend/main.py:98-117 |
| Backend.ModelIdDefault | 10-k-chatbot/backend/main.py:103-112 | the model id defaults only when the variable is unset; a blank variable gives the empty id |
| Backend.ResolveReadsOnlyItsKeys | 10-k-chatbot/backend/main.py:98-117 | resolution reads only the three credential variables |
| Backend.ScopeItemsAllowed | 10-k-chatbot/backend/main.py:214-217 | the items the request's scope assigns have distinct allowed keys, each with a value |
| Backend.ScopeKeysAllowed | 10-k-chatbot/backend/main.py:214-217 | every key the scope records is an allowed one |
| Backend.HeadersVarNotScoped | 10-k-chatbot/backend/main.py:214-217 | the telemetry headers variable is never recorded by the scope |
| Backend.OverridesAgreeWithScope | 10-k-chatbot/backend/main.py:214-219 | inside the scope, override-first resolution agrees with a plain environment lookup |
| Backend.SetupTelemetry | 10-k-chatbot/backend/main.py:133-172 | shut down a configured manager, then configure from the resolved credentials when valid, else from the raw environment, as `TelemetrySpec` |
| Backend.ShutdownKeepsCredentials | 10-k-chatbot/backend/main.py:133-138 | the opening shutdown leaves the credential variables, and so the resolution, unchanged |
| Backend.ValidConfigurationConfigures | 10-k-chatbot/backend/main.py:140-148 | with a valid config, success if and only if no step raises and the headers are accepted; the manager is then configured with the resolved credentials in the headers variable and the resolved model id |
| Backend.FallbackSucceedsOnlyOnBlankCredentials | 10-k-chatbot/backend/main.py:163-172 | the fallback succeeds only when both credentials are set, non-empty, and one is blank |
| Backend.TelemetryTouchesOnlyHeaders | 10-k-chatbot/backend/main.py:133-172 | the set-up changes no variable but the headers variable |
| Backend.TelemetryHoldsOneProcessor | 10-k-chatbot/backend/main.py:133-136 | shutting down first keeps at most one processor whatever configure raises, and the manager is tidy without faults |
| Backend.InitSpec | 10-k-chatbot/backend/main.py:129-207 | every failure of `initialize_app` is HTTP 500 |
| Backend.InitTouchesOnlyHeaders | 10-k-chatbot/backend/main.py:129-207 | `initialize_app` changes no variable but the headers variable |
| Backend.InitSetsHeaders | 10-k-chatbot/backend/main.py:140-174 | a successful initialization with a valid config leaves the resolved credentials in the headers variable |
| Backend.InitializeWithTelemetry | 10-k-chatbot/backend/main.py:129-207 | manager, environment and result become those of `InitSpec` |
| Backend.ScopedInitSpec | 10-k-chatbot/backend/main.py:214-219 | a failure of the scoped initialization is 500 |
| Backend.ScopeRestoresEnvironment | 10-k-chatbot/backend/main.py:214-248 | after a request, failed or not, every variable but the headers variable has its value from before the request |
| Backend.HeadersOutliveScope | 10-k-chatbot/backend/main.py:140-217 | after a request whose set-up succeeded, the headers variable still holds the credentials resolved inside the scope |
| LlamaBackend.InitializeApp | 10-k-chatbot/backend/main.py:120-207 | the effect and result of `InitSpec` with "default_model" and the tracer name "llamaindex_app"; the same at mustang_manual_bot/backend/main.py:104-180, ethernet-adapter-chatbot/backend/main.py:120-207 |
| LlamaBackend.ChatSpec | 10-k-chatbot/backend/main.py:210-248 | every failed chat is 500; a successful one carries the requested or the fresh session id |
| LlamaBackend.Chat | 10-k-chatbot/backend/main.py:210-248 | manager, environment and result become those of `ChatSpec`; the same at mustang_manual_bot/backend/main.py:182-222, ethernet-adapter-chatbot/backend/main.py:210-248 |
| LlamaBackend.ChatRestoresEnvironment | 10-k-chatbot/backend/main.py:214-248 | after a chat, failed or not, every variable but the headers variable is as before |
| LlamaBackend.ChatAnswers | 10-k-chatbot/backend/main.py:214-244 | accepted overrides, a valid config and a clean interaction give the response text, its sources and the session id |
| LlamaBackend.ModelIdDefaultsToDefaultModel | 10-k-chatbot/backend/main.py:110-112 | without overrides or `ARIZE_MODEL_ID` the model id is "default_model" |
| LanggraphBackend.LastReply | langgraph-fin-agent/backend/main.py:197-201 | `None` exactly when no chunk carries messages; otherwise the last message's content of a carrying chunk after which none carries |
| LanggraphBackend.CollectResponse | langgraph-fin-agent/backend/main.py:195-210 | 500 exactly when the stream raises; otherwise the last carried content, or "" |
| LanggraphBackend.CollectFinalChunk | langgraph-fin-agent/backend/main.py:230-243 | 500 exactly when the stream raises; otherwise the last chunk, `None` exactly for an empty stream |
| LanggraphBackend.InitializeLanggraphApp | langgraph-fin-agent/backend/main.py:59-122 | the effect and result of `InitSpec` with "langgraph_finance_agent" and the tracer name "langgraph_fin_agent" |
| LanggraphBackend.ChatSpec | langgraph-fin-agent/backend/main.py:177-210 | failures are 500; a success answers the collected content with the session id |
| LanggraphBackend.Chat | langgraph-fin-agent/backend/main.py:177-210 | manager, environment and result become those of `ChatSpec` |
| LanggraphBackend.FinanceQuerySpec | langgraph-fin-agent/backend/main.py:212-243 | failures are 500; a success carries the thread id, and no result exactly when no chunk arrived |
| LanggraphBackend.FinanceQuery | langgraph-fin-agent/backend/main.py:212-243 | manager, environment and result become those of `FinanceQuerySpec` |
| LanggraphBackend.ChatAnswersLastMessage | langgraph-fin-agent/backend/main.py:197-206 | a successful chat answers the last content of the last carrying chunk, or "" when none carries |
| LanggraphBackend.EndpointsRestoreEnvironment | langgraph-fin-agent/backend/main.py:180-221 | both endpoints leave every variable but the headers variable as they found it |
| LanggraphBackend.ModelIdDefaultsToAgent | langgraph-fin-agent/backend/main.py:52 | without overrides or `ARIZE_MODEL_ID` the model id is "langgraph_finance_agent" |
| ArizeBackend.InitSpec | arize-chatbot/backend/main.py:72-117 | the only error is 500, raised exactly when the lookup misses and a build step raises |
| ArizeBackend.CacheHitIgnoresBuild | arize-chatbot/backend/main.py:75-77 | on a hit, the cached bundle is returned, nothing is built and the cache is unchanged |
| ArizeBackend.BuiltBundleIsReused | arize-chatbot/backend/main.py:75-111 | after a miss that builds `b`, a later call within the TTL returns `b` whatever building would give |
| ArizeBackend.FailureCachesNothing | arize-chatbot/backend/main.py:108-117 | a failed build caches nothing under its key and keeps every other entry |
| ArizeBackend.InitializeApp | arize-chatbot/backend/main.py:72-117 | result and cache become those of `InitSpec` under the overrides' key |
| ArizeBackend.ChatSpec | arize-chatbot/backend/main.py:119-159 | failures are 500; a success carries the requested or fresh session id |
| ArizeBackend.Chat | arize-chatbot/backend/main.py:119-159 | result, cache and environment become those of `ChatSpec`, keyed by the validated overrides |
| ArizeBackend.ChatRestoresEnvironment | arize-chatbot/backend/main.py:126-159 | a chat leaves the environment exactly as it found it |
| ArizeBackend.SameOverridesShareEntry | arize-chatbot/backend/main.py:123-128 | requests whose accepted overrides are the same items share one cache entry |
| AssurantBackend.AppState.constructor | assurant-chatbot/backend/main.py:45-51 | not initialized, every component `None` |
| AssurantBackend.InitSpec | assurant-chatbot/backend/main.py:62-91 | every failure is 500 |
| AssurantBackend.InitializeApp | assurant-chatbot/backend/main.py:62-91 | `app_state` and result become those of `InitSpec` |
| AssurantBackend.InitSucceedsIffBuilt | assurant-chatbot/backend/main.py:63-87 | success if and only if already initialized or every constructor succeeds; the flag is set exactly on success, then with the components built |
| AssurantBackend.InitKeepsReady | assurant-chatbot/backend/main.py:63-86 | the flag is set only together with all four components, and once set initialization is a no-op |
| AssurantBackend.FailureLeavesEarlierComponents | assurant-chatbot/backend/main.py:66-91 | a failure leaves the flag false and keeps the components stored before the raise |
| AssurantBackend.ChatSpec | assurant-chatbot/backend/main.py:93-131 | failures are 500; a success comes from an initialized state with the session id |
| AssurantBackend.Chat | assurant-chatbot/backend/main.py:93-131 | `app_state` and result become those of `ChatSpec` |
| AssurantBackend.AnsweredFromReadyState | assurant-chatbot/backend/main.py:96-127 | every answered chat was served by a fully built `app_state`, and the flag stays honest |
| Storage.Disk.constructor | mustang_manual_bot/src/llamaindex_app/index_manager.py:36-37 | the disk holds exactly the given snapshot of the storage and data directories |
| Storage.Present | mustang_manual_bot/src/llamaindex_app/index_manager.py:85-93 | exactly the listed names that exist, in list order; empty exactly when none exists |
| Storage.Required | osha-chatbot-v2/src/llamaindex_app/index_manager.py:92-108 | all names when all exist; otherwise `FileNotFoundError` for the first missing one |
| Storage.CollectPresent | mustang_manual_bot/src/llamaindex_app/index_manager.py:85-93 | the append loop returns `Present`; the same at assurant-chatbot/src/llamaindex_app/index_manager.py:85-98 |
| Storage.CollectRequired | osha-chatbot-v2/src/llamaindex_app/index_manager.py:92-108 | the loop that raises on the first missing file returns `Required`; the same at 10-k-chatbot/src/llamaindex_app/index_manager.py:106-122 |
| Storage.RequiredStopsAt | osha-chatbot-v2/src/llamaindex_app/index_manager.py:93-108 | the first missing name decides the error |
| Storage.ClearOrCreateStorage | 10-k-chatbot/src/llamaindex_app/index_manager.py:82-88 | the storage directory exists and is empty afterwards, and the data directory is unchanged; the same at assurant-chatbot/src/llamaindex_app/index_manager.py:64-70, osha-chatbot-v2/src/llamaindex_app/index_manager.py:68-74 |
| Storage.PersistSpec | mustang_manual_bot/src/llamaindex_app/index_manager.py:211-212 | a persist succeeds unless it raises, and then the written files land in storage |
| Storage.BuildAndPersist | mustang_manual_bot/src/llamaindex_app/index_manager.py:203-215 | success if and only if reading, building and persisting succeed; it returns the index built from the sources, and a failure leaves the disk unchanged |
| Storage.Persist | mustang_manual_bot/src/llamaindex_app/index_manager.py:211-212 | the disk and result become those of `PersistSpec` |
| Storage.BuildAndPersistIndex | mustang_manual_bot/src/llamaindex_app/index_manager.py:203-215 | the disk and result become those of `BuildAndPersist` |
| Storage.RetryOutcome | mustang_manual_bot/src/llamaindex_app/index_manager.py:159-161 | the retried call returns the first successful attempt among three; when all fail it raises `RetryError` wrapping the third failure |
| Storage.RetryFrom | mustang_manual_bot/src/llamaindex_app/index_manager.py:159-162 | from attempt i on: a failure surfaces only as `RetryError`, and a success is what one of the remaining attempts returned |
| Storage.Retry | mustang_manual_bot/src/llamaindex_app/index_manager.py:159-162 | `stop_after_attempt(3)` without `reraise`: a failure surfaces only as `RetryError`, and a success is what one of the three attempts returned |
| Storage.RetryFirstSuccess | 10-k-chatbot/src/llamaindex_app/index_manager.py:63-65 | a successful first attempt is the result |
| MustangIndex.Oldest | mustang_manual_bot/src/llamaindex_app/index_manager.py:129-136 | `None` exactly when no index file exists; otherwise the least time among those present, attained by one of them |
| MustangIndex.AnyNewerPresent | mustang_manual_bot/src/llamaindex_app/index_manager.py:143-150 | scanning the PDFs found decides "some listed PDF is newer" |
| MustangIndex.AnyNewerThanOldest | mustang_manual_bot/src/llamaindex_app/index_manager.py:131-150 | newer than the oldest index file if and only if newer than some index file |
| MustangIndex.SourceNewerIff | mustang_manual_bot/src/llamaindex_app/index_manager.py:125-153 | for a valid index, rebuild is due if and only if some PDF present is strictly newer than some index file; equal times do not count |
| MustangIndex.NeedsRebuild | mustang_manual_bot/src/llamaindex_app/index_manager.py:115-157 | a rebuild is due when forced, when the index is not valid, or when reading times raises; otherwise exactly when some present listed PDF is strictly newer than some index file |
| MustangIndex.CreateSpec | mustang_manual_bot/src/llamaindex_app/index_manager.py:182-219 | makes the storage directory; `ValueError` exactly when no PDF exists; success if and only if PDFs exist and nothing raises, returning the index of exactly those PDFs, persisted |
| MustangIndex.AttemptSpec | mustang_manual_bot/src/llamaindex_app/index_manager.py:162-180 | loads exactly when no rebuild is due and loading succeeds; otherwise, or when loading raises, creates |
| MustangIndex.BuildSettles | mustang_manual_bot/src/llamaindex_app/index_manager.py:95-212 | a build that persists every index file, non-empty and no older than any PDF, is loaded by the next call |
| MustangIndex.ForcedAttemptCreates | mustang_manual_bot/src/llamaindex_app/index_manager.py:117-166 | a forced rebuild never loads |
| MustangIndex.AttemptsKeepData | mustang_manual_bot/src/llamaindex_app/index_manager.py:182-215 | no attempt touches the data directory |
| MustangIndex.ForcedRetryBuilds | mustang_manual_bot/src/llamaindex_app/index_manager.py:159-180 | a forced, retried call that succeeds returns the index built from exactly the PDFs present |
| MustangIndex.IndexManager.constructor | mustang_manual_bot/src/llamaindex_app/index_manager.py:30-37 | the manager holds the disk, the flag and the manual's file lists |
| MustangIndex.IndexManager.GetPdfFiles | mustang_manual_bot/src/llamaindex_app/index_manager.py:70-93 | exactly the existing members of the ten-name list, in list order |
| MustangIndex.IndexManager.IndexExistsAndValid | mustang_manual_bot/src/llamaindex_app/index_manager.py:95-113 | true if and only if the storage directory exists and each of the three files exists with size > 0 |
| MustangIndex.IndexManager.OldestIndexTime | mustang_manual_bot/src/llamaindex_app/index_manager.py:128-136 | the `oldest_index_time` loop returns `Oldest` |
| MustangIndex.IndexManager.ShouldRebuildIndex | mustang_manual_bot/src/llamaindex_app/index_manager.py:115-157 | true when forced, when the index is not valid, when a stat raises, or when a PDF is newer than the oldest index file |
| MustangIndex.IndexManager.AnyPdfNewer | mustang_manual_bot/src/llamaindex_app/index_manager.py:143-153 | some listed existing PDF is strictly newer than the given time |
| MustangIndex.IndexManager.CreateNewIndex | mustang_manual_bot/src/llamaindex_app/index_manager.py:182-219 | the disk and result become those of `CreateSpec` |
| MustangIndex.IndexManager.LoadOrCreateOnce | mustang_manual_bot/src/llamaindex_app/index_manager.py:162-180 | the disk and result become those of `AttemptSpec` |
| MustangIndex.IndexManager.LoadOrCreateIndex | mustang_manual_bot/src/llamaindex_app/index_manager.py:159-180 | the disk and result become those of the three-attempt retry |
| MustangIndex.IndexManager.RebuildIndex | mustang_manual_bot/src/llamaindex_app/index_manager.py:225-232 | always builds; on success the new index is stored and the flag cleared, on failure the flag stays set and the index is kept |
| MustangIndex.NewIndexManager | mustang_manual_bot/src/llamaindex_app/index_manager.py:30-38 | the constructor's retried load-or-create decides the disk, and the index or the error |
| TenKIndex.CreateSpec | 10-k-chatbot/src/llamaindex_app/index_manager.py:81-141 | clears the storage; `FileNotFoundError` when the PDF is missing; success if and only if it exists and nothing raises, and then storage holds only the new index |
| TenKIndex.AttemptSpec | 10-k-chatbot/src/llamaindex_app/index_manager.py:66-141 | loads exactly when storage is non-empty and loading succeeds; otherwise creates; a failure leaves storage empty |
| TenKIndex.OnlyFirstAttemptLoads | 10-k-chatbot/src/llamaindex_app/index_manager.py:63-88 | under the retry only the first attempt can load, because a failed attempt empties storage |
| TenKIndex.IndexManager.constructor | 10-k-chatbot/src/llamaindex_app/index_manager.py:28-34 | the manager holds the disk and no index yet |
| TenKIndex.IndexManager.LoadOrCreateOnce | 10-k-chatbot/src/llamaindex_app/index_manager.py:66-141 | the disk and result become those of `AttemptSpec` |
| TenKIndex.IndexManager.LoadOrCreateIndex | 10-k-chatbot/src/llamaindex_app/index_manager.py:63-66 | the disk and result become those of the three-attempt retry |
| TenKIndex.NewIndexManager | 10-k-chatbot/src/llamaindex_app/index_manager.py:28-34 | the constructor's retried load-or-create decides the disk, and the index or the error |
| AssurantIndex.PlaceholderSpec | assurant-chatbot/src/llamaindex_app/index_manager.py:113-120 | builds the placeholder index from no file and persists it |
| AssurantIndex.AttemptSpec | assurant-chatbot/src/llamaindex_app/index_manager.py:63-123 | never loads; builds from the reports present or, with none, the placeholder; storage then holds only what was written, and a failure leaves it empty |
| AssurantIndex.RetryIgnoresStoredIndex | assurant-chatbot/src/llamaindex_app/index_manager.py:63-70 | the retried call depends on the data directory only |
| AssurantIndex.IndexManager.constructor | assurant-chatbot/src/llamaindex_app/index_manager.py:28-34 | the manager holds the disk and no index yet |
| AssurantIndex.IndexManager.LoadOrCreateOnce | assurant-chatbot/src/llamaindex_app/index_manager.py:63-123 | the disk and result become those of `AttemptSpec` |
| AssurantIndex.IndexManager.LoadOrCreateIndex | assurant-chatbot/src/llamaindex_app/index_manager.py:60-63 | the disk and result become those of the three-attempt retry |
| AssurantIndex.NewIndexManager | assurant-chatbot/src/llamaindex_app/index_manager.py:28-34 | the constructor's retried call decides the disk, and the index or the error |
| OshaIndex.AttemptSpec | osha-chatbot-v2/src/llamaindex_app/index_manager.py:66-127 | never loads; `FileNotFoundError` for the first missing report; success if and only if both exist and nothing raises |
| OshaIndex.MissingFileFailsRetry | osha-chatbot-v2/src/llamaindex_app/index_manager.py:63-108 | a missing first report fails all three attempts, and the call raises `RetryError` wrapping `FileNotFoundError` |
| OshaIndex.IndexManager.constructor | osha-chatbot-v2/src/llamaindex_app/index_manager.py:26-32 | the manager holds the disk and no index yet |
| OshaIndex.IndexManager.LoadOrCreateOnce | osha-chatbot-v2/src/llamaindex_app/index_manager.py:66-127 | the disk and result become those of `AttemptSpec` |
| OshaIndex.IndexManager.LoadOrCreateIndex | osha-chatbot-v2/src/llamaindex_app/index_manager.py:63-66 | the disk and result become those of the three-attempt retry |
| OshaIndex.NewIndexManager | osha-chatbot-v2/src/llamaindex_app/index_manager.py:26-32 | the constructor's retried call decides the disk, and the index or the error |
| MustangBackend.AppState.constructor | mustang_manual_bot/backend/main.py:59-65 | not initialized, no query engine |
| MustangBackend.RebuildIndexEndpoint | mustang_manual_bot/backend/main.py:262-294 | 500 and nothing touched unless initialized; otherwise the disk is the forced retry's, success if and only if it succeeds, and the query engine is replaced only on success |
| MustangBackend.RebuildInstallsBuiltIndex | mustang_manual_bot/backend/main.py:277-283 | a successful rebuild installs the index built from the PDFs present, never the persisted one |
| MustangBackend.StatusIndexExists | mustang_manual_bot/backend/main.py:311-321 | the `index_exists` loop agrees with `IndexValid` |
| MustangBackend.StatusOldest | mustang_manual_bot/backend/main.py:343-356 | the `oldest_index_time` loop agrees with `Oldest` |
| MustangBackend.StatusAnyNewer | mustang_manual_bot/backend/main.py:357-363 | the PDF loop agrees with `AnyNewer` |
| MustangBackend.IndexFilesInfo | mustang_manual_bot/backend/main.py:369-381 | one entry per index file when storage exists, each the file's metadata or "does not exist" |
| MustangBackend.PdfFilesInfo | mustang_manual_bot/backend/main.py:383-390 | one entry per PDF found, with its metadata |
| MustangBackend.GetIndexStatus | mustang_manual_bot/backend/main.py:296-400 | the report's validity, rebuild decision (the same as the index manager's without `force_rebuild`), PDF count and file maps |
| MustangBackend.IndexStatusEndpoint | mustang_manual_bot/backend/main.py:296-400 | the same report over the manual's file lists |
| Classification.CleanedText | osha-chatbot-v2/src/llamaindex_app/classifier.py:45-49 | the text handed to `json.loads` is stripped; the same at mustang_manual_bot/src/llamaindex_app/classifier.py:48-52, osha-chatbot/src/llamaindex_app/classifier.py:45-49 |
| Classification.ParseClassification | osha-chatbot-v2/src/llamaindex_app/classifier.py:43-54 | a parse failure is re-raised with the cleaned text; otherwise the parsed value |
| Classification.FenceAt | osha-chatbot-v2/src/llamaindex_app/classifier.py:45-49 | "```" occurs at position m exactly when the characters at m, m+1 and m+2 are backticks |
| Classification.JsonFenceStartsWithFence | osha-chatbot-v2/src/llamaindex_app/classifier.py:46-49 | a text with "```json" contains "```" |
| Classification.InfixOccurrence | osha-chatbot-v2/src/llamaindex_app/classifier.py:45-49 | an occurrence in a slice is an occurrence in the whole text |
| Classification.StripIsInfix | osha-chatbot-v2/src/llamaindex_app/classifier.py:45 | a stripped text is a slice of the original |
| Classification.InfixFenceFree | osha-chatbot-v2/src/llamaindex_app/classifier.py:45-49 | a slice of a fence-free text is fence-free |
| Classification.UnfencedParsedWhole | osha-chatbot-v2/src/llamaindex_app/classifier.py:45-51 | with no fence, the whole stripped reply is parsed |
| Classification.CleanedTextHasNoFence | osha-chatbot-v2/src/llamaindex_app/classifier.py:46-49 | the cleaned text of a reply with a "```json" block contains no fence |
| Classification.FramedFenceFree | osha-chatbot-v2/src/llamaindex_app/classifier.py:46-49 | a fence-free payload between newlines holds no fence |
| Classification.ClosingFenceOnly | osha-chatbot-v2/src/llamaindex_app/classifier.py:46-47 | in a framed block, the first fence after the opening is the closing one |
| Classification.StripFramed | osha-chatbot-v2/src/llamaindex_app/classifier.py:47 | stripping a framed stripped payload gives the payload |
| Classification.PrefixOccurs | osha-chatbot-v2/src/llamaindex_app/classifier.py:46 | a text starting with a pattern contains it at 0 |
| Classification.BeforeFirstAt | osha-chatbot-v2/src/llamaindex_app/classifier.py:47 | the part before the first occurrence is the prefix up to it |
| Classification.NoJsonFenceAfterFence | osha-chatbot-v2/src/llamaindex_app/classifier.py:47-49 | a plain block holds no "```json" |
| Classification.JsonBlockRoundTrip | osha-chatbot-v2/src/llamaindex_app/classifier.py:45-47 | a "```json" block around a stripped fence-free payload cleans to exactly that payload |
| Classification.PlainBlockRoundTrip | osha-chatbot-v2/src/llamaindex_app/classifier.py:48-49 | a plain "```" block around a stripped fence-free payload cleans to exactly that payload |
| Classification.TemplateVars | osha-chatbot-v2/src/llamaindex_app/classifier.py:108-118 | keys are the query and the three slots; slot i is the i-th node's text when there is one, else ""; the same at mustang_manual_bot/src/llamaindex_app/classifier.py:106-116 |
| Classification.OnlyFirstThreeNodes | osha-chatbot-v2/src/llamaindex_app/classifier.py:116-118 | nodes after the third do not change the template variables |
| Classification.FillTemplateVars | osha-chatbot-v2/src/llamaindex_app/classifier.py:108-118 | the `enumerate` loop gives `TemplateVars`; the same at osha-chatbot/src/llamaindex_app/classifier.py:108-118 |
| OshaClassifier.CategoryOf | osha-chatbot-v2/src/llamaindex_app/classifier.py:28-31 | `Some` exactly for "OSHA", "risk_assessment" and "out_of_scope", with that value |
| OshaClassifier.CategoryRoundTrip | osha-chatbot-v2/src/llamaindex_app/classifier.py:28-99 | each category is recovered from its value |
| OshaClassifier.CallBedrock | osha-chatbot-v2/src/llamaindex_app/classifier.py:56-80 | a result exactly when the call answered with a content block; every failure is a `BedrockError` whose text starts "Bedrock API error: " |
| OshaClassifier.MissingKeysGiveEmptyText | osha-chatbot-v2/src/llamaindex_app/classifier.py:68-73 | a missing output, message or content gives "" |
| OshaClassifier.FirstBlockText | osha-chatbot-v2/src/llamaindex_app/classifier.py:68-74 | a first block with text gives exactly that text |
| OshaClassifier.ClassifyQuery | osha-chatbot-v2/src/llamaindex_app/classifier.py:82-99 | a result exactly when the call, the parse and the category all succeed, with the parsed category and confidence; the same at osha-chatbot/src/llamaindex_app/classifier.py:82-99 |
| OshaClassifier.UnknownCategoryRaises | osha-chatbot-v2/src/llamaindex_app/classifier.py:95-99 | any other parsed category raises |
| OshaClassifier.GetResponse | osha-chatbot-v2/src/llamaindex_app/classifier.py:101-149 | OSHA answers from the retrieved nodes, all returned as sources; risk runs "calculate_risk_score"; other queries get the fixed text; a failure is re-raised; the same at osha-chatbot/src/llamaindex_app/classifier.py:101-149 |
| MustangClassifier.CategoryOf | mustang_manual_bot/src/llamaindex_app/classifier.py:33-35 | `Some` exactly for "ford_mustang" and "out_of_scope", with that value |
| MustangClassifier.CategoryRoundTrip | mustang_manual_bot/src/llamaindex_app/classifier.py:33-97 | each category is recovered from its value |
| MustangClassifier.CallOpenAI | mustang_manual_bot/src/llamaindex_app/classifier.py:59-79 | the first choice's content exactly when the call returned choices; every failure is an `OpenAIError` whose text starts with its prefix |
| MustangClassifier.ClassifyQuery | mustang_manual_bot/src/llamaindex_app/classifier.py:81-97 | a result exactly when the call, the parse and the category all succeed |
| MustangClassifier.UnknownCategoryRaises | mustang_manual_bot/src/llamaindex_app/classifier.py:93-97 | any category but the two raises |
| MustangClassifier.GetResponse | mustang_manual_bot/src/llamaindex_app/classifier.py:99-141 | manual questions answer from the retrieved nodes, all returned; others get the fixed Mustang text |
| RiskTools.RiskCategory | airlines-chatbot/src/llamaindex_app/tools.py:65-76 | each of the five categories exactly on its band, lower bounds inclusive; the same at ethernet-adapter-chatbot/src/llamaindex_app/tools.py:65-76 |
| RiskTools.Band | airlines-chatbot/src/llamaindex_app/tools.py:67-76 | the number of thresholds reached indexes the category list |
| RiskTools.CategoryIsBand | airlines-chatbot/src/llamaindex_app/tools.py:65-76 | the category is the band's entry, so every score gets exactly one |
| RiskTools.CategoryMonotone | airlines-chatbot/src/llamaindex_app/tools.py:65-76 | a higher score never gets a lower category; the same at ethernet-adapter-chatbot/src/llamaindex_app/tools.py:65-76 |
| RiskTools.NatText | airlines-chatbot/src/llamaindex_app/tools.py:48-58 | an f-string's digits of a count are a non-empty run of decimal digits |
| RiskTools.Report | ethernet-adapter-chatbot/src/llamaindex_app/tools.py:36-59 | the text of `calculate_risk_score`'s report for a profile and a score, with the printed score and time given as text; its category line is stated by `RiskTools.ReportStatesCategory` |
| RiskTools.ReportStatesCategory | ethernet-adapter-chatbot/src/llamaindex_app/tools.py:38-58 | the report's category line, right after the score line, is the band of the score the report was computed from |
| RiskTools.GetAllTools | airlines-chatbot/src/llamaindex_app/tools.py:78-86 | exactly one tool, named "calculate_risk_score"; the same at ethernet-adapter-chatbot/src/llamaindex_app/tools.py:78-86 |
| RiskTools.FindTool | osha-chatbot-v2/src/llamaindex_app/classifier.py:132-137 | `None` exactly when no tool has the name; otherwise the first tool that has it |
| RiskTools.RiskToolFound | osha-chatbot-v2/src/llamaindex_app/classifier.py:132-139 | the lookup of "calculate_risk_score" always finds the one tool |
| Text.Strip | mustang_manual_bot/backend/main.py:88-92 | `str.strip()`: the result neither starts nor ends with whitespace, is no longer than the input, and is empty exactly when the input is all whitespace |
| Text.StripRemovesOnlyEnds | mustang_manual_bot/backend/main.py:88-92 | `strip()` gives the input with only a leading and a trailing run of whitespace removed |
| Text.TrimLeft | langgraph-fin-agent/backend/main.py:44-47 | the left half of `strip()`: a suffix of the input after an all-whitespace prefix, not starting with whitespace |
| Text.TrimRight | langgraph-fin-agent/backend/main.py:44-47 | the right half of `strip()`: a prefix of the input before an all-whitespace suffix, not ending with whitespace |
| Text.Find | osha-chatbot-v2/src/llamaindex_app/classifier.py:45-49 | the first occurrence of the pattern, or none exactly when it occurs nowhere; the test behind `in` and `split` |
| Text.SplitSecond | osha-chatbot-v2/src/llamaindex_app/classifier.py:46-49 | `split(sep)[1]` when `sep` occurs: the text after the first separator, up to the next one, which holds no separator |
| Text.StrLessIrreflexive | langgraph-fin-agent/backend/utils/session_manager.py:22 | the string order `sorted` uses is irreflexive |
| Text.StrLessTransitive | langgraph-fin-agent/backend/utils/session_manager.py:22 | the string order is transitive |
| Text.StrLessTotal | langgraph-fin-agent/backend/utils/session_manager.py:22 | two different strings are ordered one way or the other |
| Text.StrLessAsymmetric | langgraph-fin-agent/backend/utils/session_manager.py:22 | the string order is asymmetric, so sorting distinct keys is unique |
| Text.StrLess | langgraph-fin-agent/backend/utils/session_manager.py:22 | Python's `<` on strings: lexicographic by code point, a proper prefix first |
| Text.StripStripped | langgraph-fin-agent/backend/main.py:44-47 | an already stripped text is its own strip |

## Left out

- Lifespan start-up and shut-down hooks, `/health`, `/api/status`, `/debug/config` and `/` are left out. They only log or echo settings. The same goes for the FastAPI routing, CORS, pydantic validation and Uvicorn.
- Concurrency is left out. Requests run one at a time, over one manager, one environment and one cache.
- Every external library call is opaque. This covers OpenTelemetry objects, LlamaIndex reading, embedding, building, persisting and loading, OpenAI, Azure, Bedrock, LangGraph `astream`, and `build_app`. A parameter says whether the call raises and what it returns.
- `json.loads` and `QueryType(**...)` are a `parse` parameter.
- SHA-256 with `json.dumps` is a `digest` parameter. Collision resistance is not modelled.
- `datetime.now()`, `uuid4()`, tenacity's exponential waits, `random` and `time.time()` are left out. Clock readings and fresh ids are parameters, and retry is an attempt counter.
- Floats are left out. Modification times are integers, and the risk score is a `real`.
- RiskTools.Report: the random profile and score of `calculate_risk_score`, the rounding and the timestamp are left out. The printed score and time are given as text.
- `Settings`, the prompt templates, `using_prompt_template`, spans and logging are left out. Formatting a prompt is folded into the opaque call.
- `process_interaction` is opaque. A chat is given what it returned, or that it raised.
- `IndexManager._configure_llama_settings`, `get_query_engine` and `QueryEngine` are left out. They only configure or wrap the library.
- Instrumentation.FlexibleInstrumentation.Shutdown: a raising `uninstrument()` or `processor.shutdown()` is modelled as skipping the whole reset. What the library did before raising is not modelled.
- Instrumentation.FlexibleInstrumentation.IsConfigured: it returns the flag and carries no contract.
- LlamaBackend.Chat: the `components` built by `initialize_app` do not reach the interaction, which is a parameter.
- ArizeBackend.InitializeApp: the arize back-end's own session manager and `setup_instrumentation` are not part of this model. The session manager is modelled after the LangGraph copy, and `setup_instrumentation` is an opaque step that leaves the environment alone.
- ArizeBackend.Chat: the session manager's ttl is whatever it was built with. It is not tied to `CacheTtlMinutes`.
- The `src/llamaindex_app/flexible_instrumentation.py` copies imported by the other back-ends are not part of this model. They are modelled by the LangGraph copy.
- OpenAI message content that is `None` is left out. A choice's content is a string.
- MustangClassifier.GetResponse: an out-of-scope `Response` has no source nodes, modelled as the empty list.
- MustangBackend.GetIndexStatus: the stat failure is one flag for the whole guarded block, and the layout must name at least one index file, as the manual's does. A `stat()` failing in the `index_files_info` or `pdf_files_info` loops (500 at mustang_manual_bot/backend/main.py:402-404) is not modelled.
- MustangBackend.RebuildIndexEndpoint: the query engine is identified with the index it answers from.
- Storage.ClearOrCreateStorage: `unlink` failures and subdirectories in storage are not modelled.
- LlamaBackend.InitializeApp: building `IndexManager` and `QueryClassifier` is an opaque `services` step that may fail. The retried load-or-create that the `IndexManager` constructor runs on disk is modelled on its own (`TenKIndex.NewIndexManager`, `MustangIndex.NewIndexManager`), but its disk effects are not composed into initialization, so the contract says nothing about the index files.
- AssurantBackend.InitializeApp: the `IndexManager` stored in `app_state` is an opaque builder that may fail. Its disk effect (`AssurantIndex.NewIndexManager`) is not composed into initialization.
- OshaClassifier.GetResponse: the OSHA app's own `tools` module, imported by its classifier, is not part of this model. It is taken to be the airline and ethernet-adapter copy (`RiskTools.GetAllTools`), so the `StopIteration` that `next(...)` would raise when no tool is named "calculate_risk_score" is not modelled.

## Behaviour of the code worth noting

The following hold of the code as it is written, each shown by the member named:

- **A raising `instrument()` leaves a processor held.** `configure` appends the span processor before it calls `instrument()`, and sets `_is_configured` only afterwards. When `instrument()` raises, the manager is unconfigured but still holds the processor, and the next `configure` skips `shutdown` and appends a second one (`Instrumentation.InstrumentFailureLeaksProcessor`). The code's own comment says `configure` shuts down "existing configuration if any" (langgraph-fin-agent/langgraph_fin_agent/flexible_instrumentation.py:70-72).
- **A raising shutdown keeps the manager configured.** `shutdown` logs and swallows the exception, so the reset lines are skipped. The next `configure` then appends to the old processor list (`Instrumentation.ShutdownFailureLeaksProcessor`).
- **`temporary_config` does not restore.** Its docstring speaks of a temporary configuration and its `finally` comment of restoring the previous state. It ends by calling `shutdown`, so the manager is unconfigured afterwards, whatever was configured before (`Instrumentation.TemporaryConfigEndsUnconfigured`).
- **The Arize `chat` mutates the environment even on a cache hit.** It enters `temporary_env_vars` before the cache lookup and restores the overrides afterwards (`ArizeBackend.ChatSpec`, `ArizeBackend.ChatRestoresEnvironment`).
- **Only the Arize back-end uses the component cache.** The 10-K, ethernet-adapter, Mustang and LangGraph back-ends never consult or fill it (`LlamaBackend.InitializeApp`, `LanggraphBackend.InitializeLanggraphApp`).
- **The headers variable outlives the request.** `configure` sets `OTEL_EXPORTER_OTLP_TRACES_HEADERS` inside the `temporary_env_vars` block. That variable is not one of the overrides, so the scope does not restore it (`Backend.HeadersOutliveScope`).
- **An interaction error answers 500, not 400.** The `HTTPException(400)` is raised inside the `try` whose generic `except Exception` re-raises it as 500 (`Backend.ErrorTextBecomesInternalError`).
