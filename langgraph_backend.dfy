/**
 * The LangGraph finance agent back-end: `initialize_langgraph_app`, which
 * configures the telemetry manager like the LlamaIndex back-ends (with its
 * own default model id and tracer name, and without the component cache),
 * and the two endpoints that stream the graph's state updates.
 *
 * `build_app()` is opaque (`app` is what it builds, `None` when it raises),
 * and so is the graph run: a `Stream` is the chunks `astream` yields before
 * it ends or raises.
 */
module LanggraphBackend {
  import opened Outcomes
  import opened Text
  import opened Dicts
  import opened ProcessEnv
  import opened EnvManager
  import opened Instrumentation
  import opened Backend

  const DefaultModel := "langgraph_finance_agent"
  const TracerName := "langgraph_fin_agent"

  datatype Message = Message(content: string)

  /** One state update; `messages` is `None` when the chunk has no "messages" entry. */
  datatype Chunk = Chunk(messages: Option<seq<Message>>)

  /** The chunks yielded, and whether the stream then raises instead of ending. */
  datatype Stream = Stream(chunks: seq<Chunk>, raises: bool)

  datatype AgentResponse = AgentResponse(response: string, sessionId: string)

  datatype FinanceQueryRequest = FinanceQueryRequest(query: string, threadId: Option<string>, envOverrides: Option<Dict<string>>)

  datatype FinanceQueryResponse = FinanceQueryResponse(result: Option<Chunk>, threadId: string)

  /** `"messages" in chunk and len(chunk["messages"]) > 0` */
  predicate Carries(c: Chunk) {
    c.messages.Some? && |c.messages.value| > 0
  }

  function LastContent(c: Chunk): string
    requires Carries(c)
  {
    c.messages.value[|c.messages.value| - 1].content
  }

  /**
   * The content of the last message of the last chunk that carries messages,
   * or `None` when no chunk does.
   */
  function LastReply(chunks: seq<Chunk>): (r: Option<string>)
    ensures r.None? <==> forall i :: 0 <= i < |chunks| ==> !Carries(chunks[i])
    ensures r.Some? ==> exists i :: 0 <= i < |chunks| && Carries(chunks[i]) && r.value == LastContent(chunks[i]) &&
                          forall j :: i < j < |chunks| ==> !Carries(chunks[j])
  {
    if |chunks| == 0 then None
    else
      var last := chunks[|chunks| - 1];
      if Carries(last) then Some(LastContent(last))
      else
        var init := chunks[..|chunks| - 1];
        assert forall i :: 0 <= i < |init| ==> init[i] == chunks[i];
        LastReply(init)
  }

  /** `response_content` after the `async for` loop. */
  function ResponseContent(chunks: seq<Chunk>): string {
    var r := LastReply(chunks);
    if r.Some? then r.value else ""
  }

  /** The `async for` loop of `chat`, which overwrites the content at every chunk carrying messages. */
  method CollectResponse(stream: Stream) returns (r: Result<string, nat>)
    ensures r.Err? <==> stream.raises
    ensures r.Err? ==> r.error == InternalError
    ensures r.Ok? ==> r.value == ResponseContent(stream.chunks)
  {
    var content := "";
    var chunks := stream.chunks;
    for i := 0 to |chunks|
      invariant content == ResponseContent(chunks[..i])
    {
      assert chunks[..i + 1][..i] == chunks[..i];
      if chunks[i].messages.Some? && |chunks[i].messages.value| > 0 {
        var messages := chunks[i].messages.value;
        content := messages[|messages| - 1].content;
      }
    }
    assert chunks[..|chunks|] == chunks;
    if stream.raises {
      return Err(InternalError);
    }
    return Ok(content);
  }

  /** The `async for` loop of `finance_query`, which keeps the last chunk. */
  method CollectFinalChunk(stream: Stream) returns (r: Result<Option<Chunk>, nat>)
    ensures r.Err? <==> stream.raises
    ensures r.Err? ==> r.error == InternalError
    ensures r.Ok? ==> (r.value.None? <==> |stream.chunks| == 0)
    ensures r.Ok? && r.value.Some? ==> r.value.value == stream.chunks[|stream.chunks| - 1]
  {
    var final: Option<Chunk> := None;
    var chunks := stream.chunks;
    for i := 0 to |chunks|
      invariant i == 0 ==> final.None?
      invariant i > 0 ==> final == Some(chunks[i - 1])
    {
      final := Some(chunks[i]);
    }
    if stream.raises {
      return Err(InternalError);
    }
    return Ok(final);
  }

  /** `initialize_langgraph_app(env_overrides)` */
  method InitializeLanggraphApp(manager: FlexibleInstrumentation, env: Environment, overrides: Option<Dict<string>>,
                                f: TelemetryFaults, app: Option<nat>) returns (r: Result<Components, nat>)
    modifies manager, env
    ensures var i := InitSpec(old(manager.State()), old(env.vars), overrides, DefaultModel, TracerName, f, app);
      manager.State() == i.m && env.vars == i.vars && r == i.result
  {
    r := InitializeWithTelemetry(manager, env, overrides, DefaultModel, TracerName, f, app);
  }

  /** `chat(request)`: set up in the scope of the overrides, then stream the graph's reply. */
  function ChatSpec(m: Snapshot, vars: map<string, string>, request: ChatRequest, f: TelemetryFaults, app: Option<nat>,
                    stream: Stream, freshId: string): (c: Step<Result<AgentResponse, nat>>)
    ensures c.result.Err? ==> c.result.error == InternalError
    ensures c.result.Ok? ==> c.result.value == AgentResponse(ResponseContent(stream.chunks), SessionId(request.sessionId, freshId))
  {
    var s := ScopedInitSpec(m, vars, request.envOverrides, DefaultModel, TracerName, f, app);
    var result := if s.result.Err? || stream.raises then Err(InternalError)
                  else Ok(AgentResponse(ResponseContent(stream.chunks), SessionId(request.sessionId, freshId)));
    Step(s.m, s.vars, result)
  }

  method Chat(manager: FlexibleInstrumentation, env: Environment, request: ChatRequest, f: TelemetryFaults, app: Option<nat>,
              stream: Stream, freshId: string) returns (r: Result<AgentResponse, nat>)
    requires request.envOverrides.Some? ==> UniqueKeys(request.envOverrides.value)
    modifies manager, env
    ensures var c := ChatSpec(old(manager.State()), old(env.vars), request, f, app, stream, freshId);
      manager.State() == c.m && env.vars == c.vars && r == c.result
  {
    var validated := Validated(request.envOverrides);
    ghost var d := ScopeItems(request.envOverrides);
    ghost var before := env.vars;
    ScopeItemsAllowed(request.envOverrides);
    var scope, failed := Enter(env, AsOverrides(validated));
    EnterScopeWellFormed(before, d);
    assert scope == EnterScope(before, d) && env.vars == EnterVars(before, d);
    ghost var s := ScopedInitSpec(old(manager.State()), before, request.envOverrides, DefaultModel, TracerName, f, app);
    if failed {
      Exit(env, scope);
      assert s == Step(old(manager.State()), env.vars, Err(InternalError));
      return Err(InternalError);
    }
    ghost var init := InitSpec(old(manager.State()), env.vars, validated, DefaultModel, TracerName, f, app);
    assert s == Step(init.m, RestoreKeys(init.vars, scope.original, scope.toRestore), init.result);
    var components := InitializeLanggraphApp(manager, env, validated, f, app);
    if components.Err? {
      Exit(env, scope);
      return Err(InternalError);
    }
    var sessionId := SessionId(request.sessionId, freshId);
    var content := CollectResponse(stream);
    if content.Err? {
      Exit(env, scope);
      return Err(InternalError);
    }
    r := Ok(AgentResponse(content.value, sessionId));
    Exit(env, scope);
  }

  /** `finance_query(request)`: the same set-up, returning the graph's final state. */
  function FinanceQuerySpec(m: Snapshot, vars: map<string, string>, request: FinanceQueryRequest, f: TelemetryFaults, app: Option<nat>,
                            stream: Stream, freshId: string): (c: Step<Result<FinanceQueryResponse, nat>>)
    ensures c.result.Err? ==> c.result.error == InternalError
    ensures c.result.Ok? ==> c.result.value.threadId == SessionId(request.threadId, freshId)
    ensures c.result.Ok? ==> (c.result.value.result.None? <==> |stream.chunks| == 0)
  {
    var s := ScopedInitSpec(m, vars, request.envOverrides, DefaultModel, TracerName, f, app);
    var final := if |stream.chunks| == 0 then None else Some(stream.chunks[|stream.chunks| - 1]);
    var result := if s.result.Err? || stream.raises then Err(InternalError)
                  else Ok(FinanceQueryResponse(final, SessionId(request.threadId, freshId)));
    Step(s.m, s.vars, result)
  }

  method FinanceQuery(manager: FlexibleInstrumentation, env: Environment, request: FinanceQueryRequest, f: TelemetryFaults,
                      app: Option<nat>, stream: Stream, freshId: string) returns (r: Result<FinanceQueryResponse, nat>)
    requires request.envOverrides.Some? ==> UniqueKeys(request.envOverrides.value)
    modifies manager, env
    ensures var c := FinanceQuerySpec(old(manager.State()), old(env.vars), request, f, app, stream, freshId);
      manager.State() == c.m && env.vars == c.vars && r == c.result
  {
    var validated := Validated(request.envOverrides);
    ghost var d := ScopeItems(request.envOverrides);
    ghost var before := env.vars;
    ScopeItemsAllowed(request.envOverrides);
    var scope, failed := Enter(env, AsOverrides(validated));
    EnterScopeWellFormed(before, d);
    assert scope == EnterScope(before, d) && env.vars == EnterVars(before, d);
    ghost var s := ScopedInitSpec(old(manager.State()), before, request.envOverrides, DefaultModel, TracerName, f, app);
    if failed {
      Exit(env, scope);
      assert s == Step(old(manager.State()), env.vars, Err(InternalError));
      return Err(InternalError);
    }
    ghost var init := InitSpec(old(manager.State()), env.vars, validated, DefaultModel, TracerName, f, app);
    assert s == Step(init.m, RestoreKeys(init.vars, scope.original, scope.toRestore), init.result);
    var components := InitializeLanggraphApp(manager, env, validated, f, app);
    if components.Err? {
      Exit(env, scope);
      return Err(InternalError);
    }
    var threadId := SessionId(request.threadId, freshId);
    var final := CollectFinalChunk(stream);
    if final.Err? {
      Exit(env, scope);
      return Err(InternalError);
    }
    assert final.value == if |stream.chunks| == 0 then None else Some(stream.chunks[|stream.chunks| - 1]);
    assert !s.result.Err? && !stream.raises;
    r := Ok(FinanceQueryResponse(final.value, threadId));
    Exit(env, scope);
  }

  /**
   * A successful chat answers with the last message of the last chunk that
   * carries messages, and with the empty string when no chunk does.
   */
  lemma {:induction false} ChatAnswersLastMessage(m: Snapshot, vars: map<string, string>, request: ChatRequest, f: TelemetryFaults,
                                                  app: Option<nat>, stream: Stream, freshId: string)
    ensures var c := ChatSpec(m, vars, request, f, app, stream, freshId);
      && (c.result.Ok? && (forall i :: 0 <= i < |stream.chunks| ==> !Carries(stream.chunks[i])) ==> c.result.value.response == "")
      && (c.result.Ok? && (exists i :: 0 <= i < |stream.chunks| && Carries(stream.chunks[i])) ==>
            exists i :: 0 <= i < |stream.chunks| && Carries(stream.chunks[i]) && c.result.value.response == LastContent(stream.chunks[i]) &&
              forall j :: i < j < |stream.chunks| ==> !Carries(stream.chunks[j]))
  {
    var r := LastReply(stream.chunks);
    assert r.None? <==> forall i :: 0 <= i < |stream.chunks| ==> !Carries(stream.chunks[i]);
  }

  /** Both endpoints leave every variable but the headers variable as they found it. */
  lemma {:induction false} EndpointsRestoreEnvironment(m: Snapshot, vars: map<string, string>, request: ChatRequest, query: FinanceQueryRequest,
                                                       f: TelemetryFaults, app: Option<nat>, stream: Stream, freshId: string)
    requires request.envOverrides.Some? ==> UniqueKeys(request.envOverrides.value)
    requires query.envOverrides.Some? ==> UniqueKeys(query.envOverrides.value)
    requires RecordsHeadersOnly(m)
    ensures var c := ChatSpec(m, vars, request, f, app, stream, freshId);
      RecordsHeadersOnly(c.m) && forall k :: k != HeadersVar ==> Lookup(c.vars, k) == Lookup(vars, k)
    ensures var q := FinanceQuerySpec(m, vars, query, f, app, stream, freshId);
      RecordsHeadersOnly(q.m) && forall k :: k != HeadersVar ==> Lookup(q.vars, k) == Lookup(vars, k)
  {
    ScopeRestoresEnvironment(m, vars, request.envOverrides, DefaultModel, TracerName, f, app);
    ScopeRestoresEnvironment(m, vars, query.envOverrides, DefaultModel, TracerName, f, app);
  }

  /** Without overrides and without `ARIZE_MODEL_ID`, traces are tagged with the agent's own model id. */
  lemma {:induction false} ModelIdDefaultsToAgent(vars: map<string, string>)
    requires ModelIdVar !in vars
    ensures HasValidArizeConfig(None, vars, DefaultModel).1.modelId == "langgraph_finance_agent"
  {
    assert IsStripped(DefaultModel);
    ModelIdDefault(None, vars, DefaultModel);
  }
}
