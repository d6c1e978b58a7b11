/**
 * `initialize_app` and `chat` of the back-ends that serve a LlamaIndex app
 * and configure the telemetry manager themselves (the 10-K, the ethernet
 * adapter and the Mustang manual back-ends, which share this code).
 *
 * The component cache is neither consulted nor filled: these members are
 * given no session manager, and change only the telemetry manager and the
 * environment.
 */
module LlamaBackend {
  import opened Outcomes
  import opened Text
  import opened Dicts
  import opened ProcessEnv
  import opened EnvManager
  import opened Instrumentation
  import opened Backend

  const TracerName := "llamaindex_app"

  /** `initialize_app(env_overrides)` */
  method InitializeApp(manager: FlexibleInstrumentation, env: Environment, overrides: Option<Dict<string>>,
                       f: TelemetryFaults, services: Option<nat>) returns (r: Result<Components, nat>)
    modifies manager, env
    ensures var i := InitSpec(old(manager.State()), old(env.vars), overrides, DefaultModelId, TracerName, f, services);
      manager.State() == i.m && env.vars == i.vars && r == i.result
  {
    r := InitializeWithTelemetry(manager, env, overrides, DefaultModelId, TracerName, f, services);
  }

  /**
   * `chat(request)`: validate the overrides, put them in place, initialize,
   * answer, restore. `interaction` is what `process_interaction` does and
   * `freshId` the id `uuid4` would give.
   */
  function ChatSpec(m: Snapshot, vars: map<string, string>, request: ChatRequest, f: TelemetryFaults, services: Option<nat>,
                    interaction: Interaction, freshId: string): (c: Step<Result<ChatResponse, nat>>)
    ensures c.result.Err? ==> c.result.error == InternalError
    ensures c.result.Ok? ==> c.result.value.sessionId == SessionId(request.sessionId, freshId)
  {
    var s := ScopedInitSpec(m, vars, request.envOverrides, DefaultModelId, TracerName, f, services);
    Step(s.m, s.vars, if s.result.Err? then Err(InternalError) else Respond(interaction, SessionId(request.sessionId, freshId)))
  }

  method Chat(manager: FlexibleInstrumentation, env: Environment, request: ChatRequest, f: TelemetryFaults, services: Option<nat>,
              interaction: Interaction, freshId: string) returns (r: Result<ChatResponse, nat>)
    requires request.envOverrides.Some? ==> UniqueKeys(request.envOverrides.value)
    modifies manager, env
    ensures var c := ChatSpec(old(manager.State()), old(env.vars), request, f, services, interaction, freshId);
      manager.State() == c.m && env.vars == c.vars && r == c.result
  {
    var validated := Validated(request.envOverrides);
    ghost var d := ScopeItems(request.envOverrides);
    ghost var before := env.vars;
    ScopeItemsAllowed(request.envOverrides);
    var scope, failed := Enter(env, AsOverrides(validated));
    EnterScopeWellFormed(before, d);
    assert scope == EnterScope(before, d) && env.vars == EnterVars(before, d);
    ghost var s := ScopedInitSpec(old(manager.State()), before, request.envOverrides, DefaultModelId, TracerName, f, services);
    if failed {
      Exit(env, scope);
      assert s == Step(old(manager.State()), env.vars, Err(InternalError));
      return Err(InternalError);
    }
    ghost var init := InitSpec(old(manager.State()), env.vars, validated, DefaultModelId, TracerName, f, services);
    assert s == Step(init.m, RestoreKeys(init.vars, scope.original, scope.toRestore), init.result);
    var components := InitializeApp(manager, env, validated, f, services);
    assert components == init.result && manager.State() == init.m && env.vars == init.vars;
    if components.Err? {
      Exit(env, scope);
      return Err(InternalError);
    }
    var sessionId := SessionId(request.sessionId, freshId);
    r := Respond(interaction, sessionId);
    assert s.result.Ok? && r == ChatSpec(old(manager.State()), before, request, f, services, interaction, freshId).result;
    Exit(env, scope);
  }

  /**
   * After a chat request, failed or not, every variable but the telemetry
   * headers variable is as it was before the request.
   */
  lemma {:induction false} ChatRestoresEnvironment(m: Snapshot, vars: map<string, string>, request: ChatRequest, f: TelemetryFaults,
                                                   services: Option<nat>, interaction: Interaction, freshId: string)
    requires request.envOverrides.Some? ==> UniqueKeys(request.envOverrides.value)
    requires RecordsHeadersOnly(m)
    ensures var c := ChatSpec(m, vars, request, f, services, interaction, freshId);
      && RecordsHeadersOnly(c.m)
      && forall k :: k != HeadersVar ==> Lookup(c.vars, k) == Lookup(vars, k)
  {
    ScopeRestoresEnvironment(m, vars, request.envOverrides, DefaultModelId, TracerName, f, services);
  }

  /**
   * A request whose overrides are all accepted, whose resolved configuration
   * is valid and whose interaction returns a response without error is
   * answered when no constructor raises and the headers variable is accepted.
   */
  lemma {:induction false} ChatAnswers(m: Snapshot, vars: map<string, string>, request: ChatRequest,
                                       services: nat, reply: Reply, freshId: string, shutdownFails: bool, configureShutdownFails: bool)
    requires request.envOverrides.Some? ==> UniqueKeys(request.envOverrides.value)
    requires RecordsHeadersOnly(m)
    requires var d := ScopeItems(request.envOverrides); StopAt(d) == |d|
    requires var inside := EnterVars(vars, ScopeItems(request.envOverrides));
      var (valid, c) := HasValidArizeConfig(Validated(request.envOverrides), inside, DefaultModelId);
      valid && PutEnvAccepts(HeadersVar, HeadersString(c.spaceId, c.apiKey))
    ensures var f := TelemetryFaults(shutdownFails, configureShutdownFails, NoFault);
      var c := ChatSpec(m, vars, request, f, Some(services), Returned(Some(reply), None), freshId);
      c.result == Ok(ChatResponse(reply.text, Sources(reply), SessionId(request.sessionId, freshId)))
  {
    var f := TelemetryFaults(shutdownFails, configureShutdownFails, NoFault);
    var d := ScopeItems(request.envOverrides);
    var inside := EnterVars(vars, d);
    var validated := Validated(request.envOverrides);
    ValidConfigurationConfigures(m, inside, validated, DefaultModelId, f);
    var init := InitSpec(m, inside, validated, DefaultModelId, TracerName, f, Some(services));
    assert init.result.Ok?;
    assert ScopedInitSpec(m, vars, request.envOverrides, DefaultModelId, TracerName, f, Some(services)).result == init.result;
  }

  /** Without overrides and without `ARIZE_MODEL_ID`, traces are tagged with "default_model". */
  lemma {:induction false} ModelIdDefaultsToDefaultModel(vars: map<string, string>)
    requires ModelIdVar !in vars
    ensures HasValidArizeConfig(None, vars, DefaultModelId).1.modelId == "default_model"
  {
    assert IsStripped(DefaultModelId);
    ModelIdDefault(None, vars, DefaultModelId);
  }
}
