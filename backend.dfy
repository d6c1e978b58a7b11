/**
 * What the FastAPI back-ends share: the chat request and response records,
 * the conversion of one interaction's outcome into a response or an HTTP
 * error, `has_valid_arize_config`'s override-first credential resolution, and
 * the telemetry part of `initialize_app` (shut the manager down, then
 * configure it from the resolved credentials or from the raw environment),
 * run inside `temporary_env_vars`.
 *
 * The interaction itself (classification, retrieval, the LLM call) is opaque:
 * a chat call is given what `process_interaction` returned, or that it raised.
 */
module Backend {
  import opened Outcomes
  import opened Text
  import opened Dicts
  import opened ProcessEnv
  import opened EnvManager
  import opened Instrumentation

  const BadRequest: nat := 400
  const InternalError: nat := 500
  const UnknownSource := "Unknown source"

  const SpaceIdVar := "ARIZE_SPACE_ID"
  const ApiKeyVar := "ARIZE_API_KEY"
  const ModelIdVar := "ARIZE_MODEL_ID"

  // ---------------------------------------------------------------------------
  // Requests and responses
  // ---------------------------------------------------------------------------

  datatype ChatRequest = ChatRequest(message: string, sessionId: Option<string>, envOverrides: Option<Dict<string>>)

  datatype ChatResponse = ChatResponse(response: string, sources: Option<seq<string>>, sessionId: string)

  /** A retrieved node; only its metadata is read. */
  datatype SourceNode = SourceNode(metadata: map<string, string>)

  /** A response object: its text and, when it has the attribute, its source nodes. */
  datatype Reply = Reply(text: string, sourceNodes: Option<seq<SourceNode>>)

  /** What `process_interaction` did: returned `(response, error)`, or raised. */
  datatype Interaction = Returned(response: Option<Reply>, error: Option<string>) | Raised

  /** `request.session_id or str(uuid.uuid4())`, with the fresh id passed in. */
  function SessionId(requested: Option<string>, freshId: string): (id: string)
    ensures requested.Some? && requested.value != [] ==> id == requested.value
    ensures requested.None? || requested.value == [] ==> id == freshId
    ensures id != [] <==> (requested.Some? && requested.value != []) || freshId != []
  {
    if requested.Some? && requested.value != [] then requested.value else freshId
  }

  /** `node.metadata.get("file_name", "Unknown source")` */
  function FileName(node: SourceNode): string {
    if "file_name" in node.metadata then node.metadata["file_name"] else UnknownSource
  }

  /** The `sources` list: `None` without source nodes, else each node's file name, in order. */
  function Sources(r: Reply): (s: Option<seq<string>>)
    ensures s.None? <==> r.sourceNodes.None? || r.sourceNodes.value == []
    ensures s.Some? ==> |s.value| == |r.sourceNodes.value|
    ensures s.Some? ==> forall i :: 0 <= i < |s.value| ==>
      var meta := r.sourceNodes.value[i].metadata;
      s.value[i] == if "file_name" in meta then meta["file_name"] else "Unknown source"
  {
    if r.sourceNodes.None? || r.sourceNodes.value == [] then None
    else Some(seq(|r.sourceNodes.value|, i requires 0 <= i < |r.sourceNodes.value| => FileName(r.sourceNodes.value[i])))
  }

  /**
   * The `try` block: a raising interaction, a truthy error (HTTP 400) and a
   * missing response object (whose `.response` raises) are errors.
   */
  function Answer(interaction: Interaction, sessionId: string): Result<ChatResponse, nat> {
    match interaction
    case Raised => Err(InternalError)
    case Returned(response, error) =>
      if Truthy(error) then Err(BadRequest)
      else if response.None? then Err(InternalError)
      else Ok(ChatResponse(response.value.text, Sources(response.value), sessionId))
  }

  /**
   * The `try` block with its `except Exception` handler, which re-raises
   * anything, the 400 included, as HTTP 500: the only error a client sees is
   * 500, and a response is returned exactly when the interaction returned a
   * response object and no error text.
   */
  function Respond(interaction: Interaction, sessionId: string): (r: Result<ChatResponse, nat>)
    ensures r.Err? ==> r.error == InternalError
    ensures r.Ok? <==> interaction.Returned? && !Truthy(interaction.error) && interaction.response.Some?
    ensures r.Ok? ==> r.value.response == interaction.response.value.text && r.value.sessionId == sessionId
  {
    var a := Answer(interaction, sessionId);
    if a.Err? then Err(InternalError) else a
  }

  /** An error text makes the `try` block raise 400, which leaves the handler as 500. */
  lemma ErrorTextBecomesInternalError(response: Option<Reply>, error: string, sessionId: string)
    requires error != []
    ensures Answer(Returned(response, Some(error)), sessionId) == Err(BadRequest)
    ensures Respond(Returned(response, Some(error)), sessionId) == Err(InternalError)
  {
  }

  // ---------------------------------------------------------------------------
  // `has_valid_arize_config`
  // ---------------------------------------------------------------------------

  /** The override is taken when the dict holds the key and its stripped value is not empty. */
  predicate OverrideUsable(overrides: Option<Dict<string>>, key: string) {
    overrides.Some? && HasKey(overrides.value, key) && Strip(Get(overrides.value, key).value) != []
  }

  /** `get_non_empty_value(key, key, default)` */
  function Resolve(overrides: Option<Dict<string>>, vars: map<string, string>, key: string, default: string): (v: string)
    ensures IsStripped(v)
  {
    if OverrideUsable(overrides, key) then Strip(Get(overrides.value, key).value)
    else Strip(Lookup(vars, key).GetOr(default))
  }

  /** The effective configuration dict. */
  datatype ArizeConfig = ArizeConfig(spaceId: string, apiKey: string, modelId: string)

  /** `has_valid_arize_config`: the effective values, and whether both credentials are non-empty. */
  function HasValidArizeConfig(overrides: Option<Dict<string>>, vars: map<string, string>, defaultModel: string): (r: (bool, ArizeConfig))
    ensures r.0 <==> r.1.spaceId != [] && r.1.apiKey != []
    ensures IsStripped(r.1.spaceId) && IsStripped(r.1.apiKey) && IsStripped(r.1.modelId)
  {
    var c := ArizeConfig(
      Resolve(overrides, vars, SpaceIdVar, ""),
      Resolve(overrides, vars, ApiKeyVar, ""),
      Resolve(overrides, vars, ModelIdVar, defaultModel));
    (c.spaceId != [] && c.apiKey != [], c)
  }

  /** A credential is available from a usable override or from a set, non-blank variable. */
  predicate CredentialAvailable(overrides: Option<Dict<string>>, vars: map<string, string>, key: string) {
    OverrideUsable(overrides, key) || (key in vars && !AllSpace(vars[key]))
  }

  /**
   * Each resolved value is the stripped override when that is usable, else the
   * stripped environment value, else the default; the configuration is valid
   * exactly when both credentials are available.
   */
  lemma {:induction false} ValidIffCredentialsAvailable(overrides: Option<Dict<string>>, vars: map<string, string>, defaultModel: string)
    ensures var (valid, c) := HasValidArizeConfig(overrides, vars, defaultModel);
      && (valid <==> CredentialAvailable(overrides, vars, SpaceIdVar) && CredentialAvailable(overrides, vars, ApiKeyVar))
      && (OverrideUsable(overrides, SpaceIdVar) ==> c.spaceId == Strip(Get(overrides.value, SpaceIdVar).value))
      && (!OverrideUsable(overrides, SpaceIdVar) && SpaceIdVar in vars ==> c.spaceId == Strip(vars[SpaceIdVar]))
      && (OverrideUsable(overrides, ApiKeyVar) ==> c.apiKey == Strip(Get(overrides.value, ApiKeyVar).value))
      && (!OverrideUsable(overrides, ApiKeyVar) && ApiKeyVar in vars ==> c.apiKey == Strip(vars[ApiKeyVar]))
  {
    assert AllSpace("");
  }

  /**
   * The model id falls back to the default only when the variable is unset: a
   * variable set to a blank value yields the empty model id.
   */
  lemma {:induction false} ModelIdDefault(overrides: Option<Dict<string>>, vars: map<string, string>, defaultModel: string)
    requires IsStripped(defaultModel)
    requires !OverrideUsable(overrides, ModelIdVar)
    ensures var c := HasValidArizeConfig(overrides, vars, defaultModel).1;
      && (ModelIdVar !in vars ==> c.modelId == defaultModel)
      && (ModelIdVar in vars && AllSpace(vars[ModelIdVar]) ==> c.modelId == "")
  {
    if ModelIdVar !in vars {
      StripStripped(defaultModel);
    }
  }

  /** Resolution reads only the three credential variables. */
  lemma ResolveReadsOnlyItsKeys(overrides: Option<Dict<string>>, vars1: map<string, string>, vars2: map<string, string>, defaultModel: string)
    requires forall k :: k in {SpaceIdVar, ApiKeyVar, ModelIdVar} ==> Lookup(vars1, k) == Lookup(vars2, k)
    ensures HasValidArizeConfig(overrides, vars1, defaultModel) == HasValidArizeConfig(overrides, vars2, defaultModel)
  {
    assert Lookup(vars1, SpaceIdVar) == Lookup(vars2, SpaceIdVar);
    assert Lookup(vars1, ApiKeyVar) == Lookup(vars2, ApiKeyVar);
    assert Lookup(vars1, ModelIdVar) == Lookup(vars2, ModelIdVar);
  }

  // ---------------------------------------------------------------------------
  // The overrides a chat request puts in place
  // ---------------------------------------------------------------------------

  /** `validate_env_overrides(request.env_overrides)` */
  function Validated(envOverrides: Option<Dict<string>>): Option<Dict<string>> {
    ValidateEnvOverrides(AsOverrides(envOverrides))
  }

  /** The items `temporary_env_vars` assigns for a request. */
  function ScopeItems(envOverrides: Option<Dict<string>>): Dict<Option<string>> {
    Items(AsOverrides(Validated(envOverrides)))
  }

  lemma {:induction false} ScopeItemsAllowed(envOverrides: Option<Dict<string>>)
    requires envOverrides.Some? ==> UniqueKeys(envOverrides.value)
    ensures var d := ScopeItems(envOverrides);
      && UniqueKeys(d)
      && (forall i :: 0 <= i < |d| ==> d[i].0 in AllowedVars && d[i].1.Some?)
      && (var v := Validated(envOverrides); v.Some? ==> UniqueKeys(v.value))
  {
    AsOverridesUnique(envOverrides);
    var v := Validated(envOverrides);
    AsOverridesUnique(v);
  }

  /** Every key the scope records is an allowed one, so never the headers variable. */
  lemma {:induction false} ScopeKeysAllowed(vars: map<string, string>, envOverrides: Option<Dict<string>>)
    requires envOverrides.Some? ==> UniqueKeys(envOverrides.value)
    ensures forall k :: k in EnterScope(vars, ScopeItems(envOverrides)).toRestore ==> k in AllowedVars
  {
    var d := ScopeItems(envOverrides);
    ScopeItemsAllowed(envOverrides);
    var n := StopAt(d);
    forall k | k in EnterScope(vars, d).toRestore
      ensures k in AllowedVars
    {
      if k in Touched(d[..n]) {
        var i :| 0 <= i < |d[..n]| && d[..n][i].0 == k && d[..n][i].1.Some?;
        assert d[i] == d[..n][i];
      }
    }
  }

  lemma HeadersVarNotScoped(vars: map<string, string>, envOverrides: Option<Dict<string>>)
    requires envOverrides.Some? ==> UniqueKeys(envOverrides.value)
    ensures HeadersVar !in EnterScope(vars, ScopeItems(envOverrides)).toRestore
  {
    ScopeKeysAllowed(vars, envOverrides);
    assert HeadersVar !in AllowedVars;
  }

  /**
   * Inside the scope the resolution agrees with the environment: the validated
   * overrides were assigned, so an override-first lookup and a plain lookup of
   * the environment give the same value for every allowed key.
   */
  lemma {:induction false} OverridesAgreeWithScope(vars: map<string, string>, envOverrides: Option<Dict<string>>, key: string, default: string)
    requires envOverrides.Some? ==> UniqueKeys(envOverrides.value)
    requires StopAt(ScopeItems(envOverrides)) == |ScopeItems(envOverrides)|
    ensures var inside := EnterVars(vars, ScopeItems(envOverrides));
      Resolve(Validated(envOverrides), inside, key, default) == Resolve(None, inside, key, default)
  {
    var v := Validated(envOverrides);
    var d := ScopeItems(envOverrides);
    ScopeItemsAllowed(envOverrides);
    assert d[..|d|] == d;
    AppliedLookup(vars, d, key);
    var inside := EnterVars(vars, d);
    if v.Some? && HasKey(v.value, key) {
      var i :| 0 <= i < |v.value| && v.value[i].0 == key;
      assert Get(v.value, key) == Some(v.value[i].1);
      assert d[i] == (key, Some(v.value[i].1));
      assert Get(d, key) == Some(Some(v.value[i].1));
      assert !AllSpace(v.value[i].1);
      assert Lookup(inside, key) == Some(v.value[i].1);
    } else {
      assert !OverrideUsable(v, key);
    }
  }

  // ---------------------------------------------------------------------------
  // The telemetry part of `initialize_app`
  // ---------------------------------------------------------------------------

  /**
   * Which calls raise while the telemetry is set up: the explicit shutdown,
   * the shutdown inside `configure`, and the failing step of `configure`.
   */
  datatype TelemetryFaults = TelemetryFaults(shutdownFails: bool, configureShutdownFails: bool, fault: ConfigureFault)

  /** The configuration `initialize_app` passes on: the resolved one when valid, else the raw environment's. */
  function ChosenConfig(overrides: Option<Dict<string>>, vars: map<string, string>, defaultModel: string): TracerConfig {
    var (valid, c) := HasValidArizeConfig(overrides, vars, defaultModel);
    if valid then WithCredentials(Some(c.spaceId), Some(c.apiKey), c.modelId, true) else FromEnv(vars, true)
  }

  /** Shut down a configured manager, then configure with the chosen configuration. */
  function TelemetrySpec(m: Snapshot, vars: map<string, string>, overrides: Option<Dict<string>>, defaultModel: string, f: TelemetryFaults): Step<Result<Provider, ConfigError>> {
    var s := if m.configured then ShutdownSpec(m, vars, f.shutdownFails) else Step(m, vars, ());
    ConfigureSpec(s.m, s.vars, ChosenConfig(overrides, s.vars, defaultModel), f.configureShutdownFails, f.fault)
  }

  method SetupTelemetry(manager: FlexibleInstrumentation, env: Environment, overrides: Option<Dict<string>>, defaultModel: string, f: TelemetryFaults)
    returns (r: Result<Provider, ConfigError>)
    modifies manager, env
    ensures var t := TelemetrySpec(old(manager.State()), old(env.vars), overrides, defaultModel, f);
      manager.State() == t.m && env.vars == t.vars && r == t.result
  {
    if manager.IsConfigured() {
      manager.Shutdown(env, f.shutdownFails);
    }
    var (valid, c) := HasValidArizeConfig(overrides, env.vars, defaultModel);
    if valid {
      r := manager.Configure(env, WithCredentials(Some(c.spaceId), Some(c.apiKey), c.modelId, true), f.configureShutdownFails, f.fault);
    } else {
      r := SetupFlexibleInstrumentation(manager, env, None, f.configureShutdownFails, f.fault);
    }
  }

  /** The opening shutdown leaves the credential variables alone. */
  lemma {:induction false} ShutdownKeepsCredentials(m: Snapshot, vars: map<string, string>, f: TelemetryFaults, defaultModel: string, overrides: Option<Dict<string>>)
    requires RecordsHeadersOnly(m)
    ensures var s := if m.configured then ShutdownSpec(m, vars, f.shutdownFails) else Step(m, vars, ());
      && RecordsHeadersOnly(s.m)
      && (forall k :: k != HeadersVar ==> Lookup(s.vars, k) == Lookup(vars, k))
      && HasValidArizeConfig(overrides, s.vars, defaultModel) == HasValidArizeConfig(overrides, vars, defaultModel)
  {
    ShutdownResets(m, vars, f.shutdownFails);
    var s := if m.configured then ShutdownSpec(m, vars, f.shutdownFails) else Step(m, vars, ());
    ResolveReadsOnlyItsKeys(overrides, s.vars, vars, defaultModel);
  }

  /**
   * With a valid configuration the set-up succeeds exactly when no
   * constructor raises and the headers variable is accepted; it then leaves
   * the manager configured, the headers variable holding the resolved
   * credentials, and the provider tagged with the resolved model id.
   */
  lemma {:induction false} ValidConfigurationConfigures(m: Snapshot, vars: map<string, string>, overrides: Option<Dict<string>>, defaultModel: string, f: TelemetryFaults)
    requires RecordsHeadersOnly(m)
    requires HasValidArizeConfig(overrides, vars, defaultModel).0
    ensures var c := HasValidArizeConfig(overrides, vars, defaultModel).1;
      var t := TelemetrySpec(m, vars, overrides, defaultModel, f);
      && (t.result.Ok? <==> f.fault == NoFault && PutEnvAccepts(HeadersVar, HeadersString(c.spaceId, c.apiKey)))
      && (t.result.Ok? ==>
            && t.m.configured
            && t.m.envVarKey == Some(HeadersVar)
            && Lookup(t.vars, HeadersVar) == Some(HeadersString(c.spaceId, c.apiKey))
            && t.result.value.resource == map["model_id" := Str(c.modelId)])
  {
    var s := if m.configured then ShutdownSpec(m, vars, f.shutdownFails) else Step(m, vars, ());
    ShutdownKeepsCredentials(m, vars, f, defaultModel, overrides);
    var c := HasValidArizeConfig(overrides, vars, defaultModel).1;
    var config := WithCredentials(Some(c.spaceId), Some(c.apiKey), c.modelId, true);
    assert ChosenConfig(overrides, s.vars, defaultModel) == config;
    ConfigureSucceeds(s.m, s.vars, config, f.configureShutdownFails, f.fault);
    if f.fault == NoFault {
      ConfigureHeaders(s.m, s.vars, config, f.configureShutdownFails);
    }
  }

  /**
   * Without a valid configuration the fallback reads the raw variables, which
   * `configure` accepts only when both are non-empty; so the fallback succeeds
   * only when a credential is set but blank.
   */
  lemma {:induction false} FallbackSucceedsOnlyOnBlankCredentials(m: Snapshot, vars: map<string, string>, overrides: Option<Dict<string>>, defaultModel: string, f: TelemetryFaults)
    requires RecordsHeadersOnly(m)
    requires !HasValidArizeConfig(overrides, vars, defaultModel).0
    ensures var t := TelemetrySpec(m, vars, overrides, defaultModel, f);
      t.result.Ok? ==>
        && SpaceIdVar in vars && ApiKeyVar in vars
        && vars[SpaceIdVar] != [] && vars[ApiKeyVar] != []
        && (AllSpace(vars[SpaceIdVar]) || AllSpace(vars[ApiKeyVar]))
  {
    var s := if m.configured then ShutdownSpec(m, vars, f.shutdownFails) else Step(m, vars, ());
    ShutdownKeepsCredentials(m, vars, f, defaultModel, overrides);
    ValidIffCredentialsAvailable(overrides, vars, defaultModel);
    var config := FromEnv(s.vars, true);
    assert ChosenConfig(overrides, s.vars, defaultModel) == config;
    ConfigureSucceeds(s.m, s.vars, config, f.configureShutdownFails, f.fault);
    assert Lookup(s.vars, SpaceIdVar) == Lookup(vars, SpaceIdVar);
    assert Lookup(s.vars, ApiKeyVar) == Lookup(vars, ApiKeyVar);
  }

  /** The set-up changes no environment variable but the headers variable. */
  lemma {:induction false} TelemetryTouchesOnlyHeaders(m: Snapshot, vars: map<string, string>, overrides: Option<Dict<string>>, defaultModel: string, f: TelemetryFaults)
    requires RecordsHeadersOnly(m)
    ensures var t := TelemetrySpec(m, vars, overrides, defaultModel, f);
      && RecordsHeadersOnly(t.m)
      && forall k :: k != HeadersVar ==> Lookup(t.vars, k) == Lookup(vars, k)
  {
    var s := if m.configured then ShutdownSpec(m, vars, f.shutdownFails) else Step(m, vars, ());
    ShutdownKeepsCredentials(m, vars, f, defaultModel, overrides);
    ConfigureTouchesOnlyHeaders(s.m, s.vars, ChosenConfig(overrides, s.vars, defaultModel), f.configureShutdownFails, f.fault);
  }

  /**
   * Because the manager is shut down first, a tidy manager whose shutdown
   * completes holds at most one processor afterwards, whatever configure
   * then raises; and it is tidy again when nothing raises.
   */
  lemma {:induction false} TelemetryHoldsOneProcessor(m: Snapshot, vars: map<string, string>, overrides: Option<Dict<string>>, defaultModel: string, f: TelemetryFaults)
    requires Tidy(m) && !f.shutdownFails
    ensures var t := TelemetrySpec(m, vars, overrides, defaultModel, f);
      && |t.m.processors| <= 1
      && (f.fault == NoFault ==> Tidy(t.m))
  {
    var s := if m.configured then ShutdownSpec(m, vars, f.shutdownFails) else Step(m, vars, ());
    ShutdownResets(m, vars, f.shutdownFails);
    assert s.m == Reset;
    var config := ChosenConfig(overrides, s.vars, defaultModel);
    assert TelemetrySpec(m, vars, overrides, defaultModel, f) == ConfigureSpec(s.m, s.vars, config, f.configureShutdownFails, f.fault);
    ConfigureFromResetHoldsOne(s.vars, config, f.configureShutdownFails, f.fault);
  }

  // ---------------------------------------------------------------------------
  // `initialize_app` of the back-ends that configure the telemetry manager
  // ---------------------------------------------------------------------------

  /** The components dict: the tracer, and what else was built, as one opaque token. */
  datatype Components = Components(tracer: Tracer, services: nat)

  /**
   * Telemetry set-up, `tracer_provider.get_tracer(name)`, then the remaining
   * constructors (`None` when one raises); any failure is HTTP 500.
   */
  function InitSpec(m: Snapshot, vars: map<string, string>, overrides: Option<Dict<string>>, defaultModel: string, tracerName: string,
                    f: TelemetryFaults, services: Option<nat>): (r: Step<Result<Components, nat>>)
    ensures r.result.Err? ==> r.result.error == InternalError
  {
    var t := TelemetrySpec(m, vars, overrides, defaultModel, f);
    var result := if t.result.Ok? && services.Some? then Ok(Components(Tracer(tracerName, t.result.value), services.value)) else Err(InternalError);
    Step(t.m, t.vars, result)
  }

  lemma {:induction false} InitTouchesOnlyHeaders(m: Snapshot, vars: map<string, string>, overrides: Option<Dict<string>>, defaultModel: string,
                                                  tracerName: string, f: TelemetryFaults, services: Option<nat>)
    requires RecordsHeadersOnly(m)
    ensures var i := InitSpec(m, vars, overrides, defaultModel, tracerName, f, services);
      && RecordsHeadersOnly(i.m)
      && forall k :: k != HeadersVar ==> Lookup(i.vars, k) == Lookup(vars, k)
  {
    TelemetryTouchesOnlyHeaders(m, vars, overrides, defaultModel, f);
  }

  /** A successful initialization with a valid configuration leaves the resolved credentials in the headers variable. */
  lemma {:induction false} InitSetsHeaders(m: Snapshot, vars: map<string, string>, overrides: Option<Dict<string>>, defaultModel: string,
                                           tracerName: string, f: TelemetryFaults, services: Option<nat>)
    requires RecordsHeadersOnly(m)
    ensures var (valid, c) := HasValidArizeConfig(overrides, vars, defaultModel);
      var i := InitSpec(m, vars, overrides, defaultModel, tracerName, f, services);
      valid && i.result.Ok? ==> Lookup(i.vars, HeadersVar) == Some(HeadersString(c.spaceId, c.apiKey))
  {
    if HasValidArizeConfig(overrides, vars, defaultModel).0 {
      ValidConfigurationConfigures(m, vars, overrides, defaultModel, f);
    }
  }

  method InitializeWithTelemetry(manager: FlexibleInstrumentation, env: Environment, overrides: Option<Dict<string>>, defaultModel: string,
                                 tracerName: string, f: TelemetryFaults, services: Option<nat>) returns (r: Result<Components, nat>)
    modifies manager, env
    ensures var i := InitSpec(old(manager.State()), old(env.vars), overrides, defaultModel, tracerName, f, services);
      manager.State() == i.m && env.vars == i.vars && r == i.result
  {
    var provider := SetupTelemetry(manager, env, overrides, defaultModel, f);
    if provider.Err? || services.None? {
      return Err(InternalError);
    }
    var tracer := Tracer(tracerName, provider.value);
    return Ok(Components(tracer, services.value));
  }

  /**
   * `with temporary_env_vars(validated): initialize(validated)` up to the
   * end of the scope: the manager, the environment after the exit loop, and
   * the components, or 500 when entry or initialization raised. What runs in
   * the scope after initialization leaves both alone.
   */
  function ScopedInitSpec(m: Snapshot, vars: map<string, string>, envOverrides: Option<Dict<string>>, defaultModel: string,
                          tracerName: string, f: TelemetryFaults, services: Option<nat>): (r: Step<Result<Components, nat>>)
    ensures r.result.Err? ==> r.result.error == InternalError
  {
    var d := ScopeItems(envOverrides);
    var scope := EnterScope(vars, d);
    var inside := EnterVars(vars, d);
    if StopAt(d) < |d| then Step(m, RestoreKeys(inside, scope.original, scope.toRestore), Err(InternalError))
    else
      var init := InitSpec(m, inside, Validated(envOverrides), defaultModel, tracerName, f, services);
      Step(init.m, RestoreKeys(init.vars, scope.original, scope.toRestore), init.result)
  }

  /**
   * After a request every variable but the telemetry headers variable is
   * back to its value before the request, or absent if it was absent,
   * whether the request succeeded or not.
   */
  lemma {:induction false} ScopeRestoresEnvironment(m: Snapshot, vars: map<string, string>, envOverrides: Option<Dict<string>>, defaultModel: string,
                                                    tracerName: string, f: TelemetryFaults, services: Option<nat>)
    requires envOverrides.Some? ==> UniqueKeys(envOverrides.value)
    requires RecordsHeadersOnly(m)
    ensures var s := ScopedInitSpec(m, vars, envOverrides, defaultModel, tracerName, f, services);
      && RecordsHeadersOnly(s.m)
      && forall k :: k != HeadersVar ==> Lookup(s.vars, k) == Lookup(vars, k)
  {
    var d := ScopeItems(envOverrides);
    ScopeItemsAllowed(envOverrides);
    var scope := EnterScope(vars, d);
    var inside := EnterVars(vars, d);
    if StopAt(d) == |d| {
      var validated := Validated(envOverrides);
      var init := InitSpec(m, inside, validated, defaultModel, tracerName, f, services);
      InitTouchesOnlyHeaders(m, inside, validated, defaultModel, tracerName, f, services);
      ExitRestoresAllBut(vars, d, init.vars, HeadersVar);
      assert ScopedInitSpec(m, vars, envOverrides, defaultModel, tracerName, f, services) ==
        Step(init.m, RestoreKeys(init.vars, scope.original, scope.toRestore), init.result);
    } else {
      EnterExitRoundTrip(vars, d);
    }
  }

  /**
   * The headers variable is not restored: after a request whose set-up
   * succeeded with a valid configuration, it still holds the credentials
   * resolved inside the scope, the request's overrides included.
   */
  lemma {:induction false} HeadersOutliveScope(m: Snapshot, vars: map<string, string>, envOverrides: Option<Dict<string>>, defaultModel: string,
                                               tracerName: string, f: TelemetryFaults, services: Option<nat>)
    requires envOverrides.Some? ==> UniqueKeys(envOverrides.value)
    requires RecordsHeadersOnly(m)
    ensures var d := ScopeItems(envOverrides);
      var (valid, c) := HasValidArizeConfig(Validated(envOverrides), EnterVars(vars, d), defaultModel);
      var s := ScopedInitSpec(m, vars, envOverrides, defaultModel, tracerName, f, services);
      s.result.Ok? && valid ==> Lookup(s.vars, HeadersVar) == Some(HeadersString(c.spaceId, c.apiKey))
  {
    var d := ScopeItems(envOverrides);
    var scope := EnterScope(vars, d);
    var inside := EnterVars(vars, d);
    var validated := Validated(envOverrides);
    var (valid, c) := HasValidArizeConfig(validated, inside, defaultModel);
    if StopAt(d) == |d| && valid {
      var init := InitSpec(m, inside, validated, defaultModel, tracerName, f, services);
      InitSetsHeaders(m, inside, validated, defaultModel, tracerName, f, services);
      HeadersVarNotScoped(vars, envOverrides);
      RestoreLookup(init.vars, scope.original, scope.toRestore, HeadersVar);
      assert ScopedInitSpec(m, vars, envOverrides, defaultModel, tracerName, f, services) ==
        Step(init.m, RestoreKeys(init.vars, scope.original, scope.toRestore), init.result);
    }
  }
}
