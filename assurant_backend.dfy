/**
 * The Assurant chatbot back-end: a module-level `app_state` that
 * `initialize_app` fills one component at a time and marks initialized last,
 * and a `chat` endpoint that initializes on demand.
 *
 * The constructors (settings, instrumentation and tracer, OpenAI client,
 * index manager and query engine, classifier) are opaque: `Builders` says
 * what each makes, `None` (or `false` for the settings) when it raises.
 */
module AssurantBackend {
  import opened Outcomes
  import opened Backend

  /** A snapshot of `app_state`. */
  datatype Fields = Fields(initialized: bool, tracer: Option<nat>, openaiClient: Option<nat>,
                           queryEngine: Option<nat>, classifier: Option<nat>)

  /** What each constructor of one `initialize_app` call gives. */
  datatype Builders = Builders(settingsLoad: bool, tracer: Option<nat>, openaiClient: Option<nat>,
                               queryEngine: Option<nat>, classifier: Option<nat>)

  predicate AllBuilt(b: Builders) {
    b.settingsLoad && b.tracer.Some? && b.openaiClient.Some? && b.queryEngine.Some? && b.classifier.Some?
  }

  /** The flag is only ever set together with all four components. */
  predicate Ready(s: Fields) {
    s.initialized ==> s.tracer.Some? && s.openaiClient.Some? && s.queryEngine.Some? && s.classifier.Some?
  }

  class AppState {
    var initialized: bool
    var tracer: Option<nat>
    var openaiClient: Option<nat>
    var queryEngine: Option<nat>
    var classifier: Option<nat>

    function State(): Fields
      reads this
    {
      Fields(initialized, tracer, openaiClient, queryEngine, classifier)
    }

    /** The initial `app_state`: not initialized, every component `None`. */
    constructor()
      ensures State() == Fields(false, None, None, None, None)
    {
      initialized := false;
      tracer := None;
      openaiClient := None;
      queryEngine := None;
      classifier := None;
    }
  }

  datatype InitOutcome = InitOutcome(state: Fields, result: Result<(), nat>)

  /**
   * `initialize_app()`: nothing when already initialized; otherwise each
   * component is stored as soon as it is built, and a raise stops there with
   * HTTP 500, leaving the components stored so far.
   */
  function InitSpec(s: Fields, b: Builders): (o: InitOutcome)
    ensures o.result.Err? ==> o.result.error == InternalError
  {
    if s.initialized then InitOutcome(s, Ok(()))
    else if !b.settingsLoad || b.tracer.None? then InitOutcome(s, Err(InternalError))
    else
      var s1 := s.(tracer := b.tracer);
      if b.openaiClient.None? then InitOutcome(s1, Err(InternalError))
      else
        var s2 := s1.(openaiClient := b.openaiClient);
        if b.queryEngine.None? then InitOutcome(s2, Err(InternalError))
        else
          var s3 := s2.(queryEngine := b.queryEngine);
          if b.classifier.None? then InitOutcome(s3, Err(InternalError))
          else InitOutcome(s3.(classifier := b.classifier, initialized := true), Ok(()))
  }

  method InitializeApp(state: AppState, b: Builders) returns (r: Result<(), nat>)
    modifies state
    ensures InitOutcome(state.State(), r) == InitSpec(old(state.State()), b)
  {
    if !state.initialized {
      if !b.settingsLoad || b.tracer.None? {
        return Err(InternalError);
      }
      state.tracer := b.tracer;
      if b.openaiClient.None? {
        return Err(InternalError);
      }
      state.openaiClient := b.openaiClient;
      if b.queryEngine.None? {
        return Err(InternalError);
      }
      state.queryEngine := b.queryEngine;
      if b.classifier.None? {
        return Err(InternalError);
      }
      state.classifier := b.classifier;
      state.initialized := true;
    }
    return Ok(());
  }

  /**
   * Initialization succeeds exactly when the app was initialized already or
   * every constructor succeeds; it leaves the flag set exactly when it
   * succeeds, and then with the components just built if it built them.
   */
  lemma InitSucceedsIffBuilt(s: Fields, b: Builders)
    ensures var o := InitSpec(s, b);
      && (o.result.Ok? <==> s.initialized || AllBuilt(b))
      && (o.state.initialized <==> o.result.Ok?)
      && (o.result.Ok? && !s.initialized ==>
            o.state == Fields(true, b.tracer, b.openaiClient, b.queryEngine, b.classifier))
  {
  }

  /** Initialization keeps the flag honest, and once set it is a no-op whatever the constructors would do. */
  lemma InitKeepsReady(s: Fields, b: Builders)
    requires Ready(s)
    ensures Ready(InitSpec(s, b).state)
    ensures s.initialized ==> InitSpec(s, b) == InitOutcome(s, Ok(()))
  {
  }

  /** A failed initialization leaves the components it stored before the raise. */
  lemma FailureLeavesEarlierComponents(s: Fields, b: Builders)
    requires !s.initialized && b.settingsLoad && b.tracer.Some?
    ensures var o := InitSpec(s, b);
      o.result.Err? ==> !o.state.initialized && o.state.tracer == b.tracer && o.state.classifier == s.classifier
  {
  }

  datatype PlainChatRequest = PlainChatRequest(message: string, sessionId: Option<string>)

  /**
   * `chat(request)`: initialize unless initialized, then answer from the
   * components in `app_state`; `interaction` is what `process_interaction`
   * does with them.
   */
  function ChatSpec(s: Fields, request: PlainChatRequest, b: Builders, interaction: Interaction, freshId: string): (o: (Fields, Result<ChatResponse, nat>))
    ensures o.1.Err? ==> o.1.error == InternalError
    ensures o.1.Ok? ==> o.0.initialized && o.1.value.sessionId == SessionId(request.sessionId, freshId)
  {
    var init := InitSpec(s, b);
    if init.result.Err? then (init.state, Err(InternalError))
    else
      InitSucceedsIffBuilt(s, b);
      (init.state, Respond(interaction, SessionId(request.sessionId, freshId)))
  }

  method Chat(state: AppState, request: PlainChatRequest, b: Builders, interaction: Interaction, freshId: string)
    returns (r: Result<ChatResponse, nat>)
    modifies state
    ensures (state.State(), r) == ChatSpec(old(state.State()), request, b, interaction, freshId)
  {
    if !state.initialized {
      var init := InitializeApp(state, b);
      if init.Err? {
        return Err(InternalError);
      }
    }
    var sessionId := SessionId(request.sessionId, freshId);
    r := Respond(interaction, sessionId);
  }

  /** Every answered chat was served by a fully built `app_state`. */
  lemma {:induction false} AnsweredFromReadyState(s: Fields, request: PlainChatRequest, b: Builders, interaction: Interaction, freshId: string)
    requires Ready(s)
    ensures var (t, r) := ChatSpec(s, request, b, interaction, freshId);
      Ready(t) && (r.Ok? ==> t.tracer.Some? && t.openaiClient.Some? && t.queryEngine.Some? && t.classifier.Some?)
  {
    InitKeepsReady(s, b);
    InitSucceedsIffBuilt(s, b);
  }
}
