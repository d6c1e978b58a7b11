/**
 * `initialize_app` and `chat` of the Arize chatbot back-end: components are
 * built once per distinct set of environment overrides and reused from the
 * component cache for 30 minutes.
 *
 * Building the components (settings, instrumentation, client, index, query
 * engine, classifier) is opaque: `built` is the bundle they make, or `None`
 * when one of them raises. None of it touches the environment here.
 */
module ArizeBackend {
  import opened Outcomes
  import opened Dicts
  import opened ProcessEnv
  import opened EnvManager
  import opened SessionManager
  import opened Backend

  /** `SessionManager(cache_ttl_minutes=30)` */
  const CacheTtlMinutes: int := 30

  /** The components dictionary: query engine, classifier, tracer and OpenAI client. */
  datatype Bundle = Bundle(queryEngine: nat, classifier: nat, tracer: nat, openaiClient: nat)

  /** The three `datetime.now()` readings of one initialization: lookup, store stamp, cleanup. */
  datatype Clock = Clock(lookup: int, store: int, cleanup: int)

  type Cache = map<string, Entry<Bundle>>

  /** What `initialize_app` returns or raises, and the cache it leaves, for cache key `key`. */
  datatype InitOutcome = InitOutcome(result: Result<Bundle, nat>, cache: Cache)

  function InitSpec(cache: Cache, key: string, clock: Clock, built: Option<Bundle>, ttl: int): (o: InitOutcome)
    ensures o.result.Err? ==> o.result.error == InternalError
    ensures o.result.Err? <==> built.None? && LookupSpec(cache, key, clock.lookup, ttl).0.None?
  {
    var (hit, c) := LookupSpec(cache, key, clock.lookup, ttl);
    if hit.Some? then InitOutcome(Ok(hit.value), c)
    else if built.None? then InitOutcome(Err(InternalError), c)
    else InitOutcome(Ok(built.value), StoreSpec(c, key, built.value, clock.store, clock.cleanup, ttl))
  }

  /** On a hit the cached bundle is returned, nothing is built and the cache is unchanged. */
  lemma CacheHitIgnoresBuild(cache: Cache, key: string, clock: Clock, built: Option<Bundle>, ttl: int)
    requires key in cache && Fresh(cache[key], clock.lookup, ttl)
    ensures InitSpec(cache, key, clock, built, ttl) == InitOutcome(Ok(cache[key].components), cache)
  {
  }

  /**
   * After a miss that builds `b`, a later initialization for the same key
   * within the TTL returns `b` again, whatever building would give then.
   */
  lemma {:induction false} BuiltBundleIsReused(cache: Cache, key: string, c1: Clock, b: Bundle, c2: Clock, later: Option<Bundle>, ttl: int)
    requires LookupSpec(cache, key, c1.lookup, ttl).0.None?
    requires c1.cleanup - c1.store < ttl && c2.lookup - c1.store < ttl
    ensures var first := InitSpec(cache, key, c1, Some(b), ttl);
      first.result == Ok(b) && InitSpec(first.cache, key, c2, later, ttl) == InitOutcome(Ok(b), first.cache)
  {
    var c := LookupSpec(cache, key, c1.lookup, ttl).1;
    StoreThenLookup(c, key, b, c1.store, c1.cleanup, c2.lookup, ttl);
  }

  /** A failed initialization caches nothing under its key and keeps every other entry. */
  lemma FailureCachesNothing(cache: Cache, key: string, clock: Clock, ttl: int)
    requires LookupSpec(cache, key, clock.lookup, ttl).0.None?
    ensures var o := InitSpec(cache, key, clock, None, ttl);
      && o.result == Err(InternalError)
      && key !in o.cache
      && forall j :: j != key ==> (j in o.cache <==> j in cache) && (j in o.cache ==> o.cache[j] == cache[j])
  {
  }

  /** `initialize_app(env_overrides)` */
  method InitializeApp(sessions: SessionManager<Bundle>, overrides: Option<Dict<string>>, clock: Clock, built: Option<Bundle>)
    returns (r: Result<Bundle, nat>)
    requires overrides.Some? ==> UniqueKeys(overrides.value)
    modifies sessions
    ensures InitOutcome(r, sessions.cache) == InitSpec(old(sessions.cache), sessions.CacheKey(overrides), clock, built, sessions.ttl)
  {
    var cached := sessions.GetCachedComponents(overrides, clock.lookup);
    if cached.Some? {
      return Ok(cached.value);
    }
    if built.None? {
      return Err(InternalError);
    }
    sessions.CacheComponents(overrides, built.value, clock.store, clock.cleanup);
    return Ok(built.value);
  }

  /** The response, the cache and the environment after one chat request. */
  datatype ChatOutcome = ChatOutcome(result: Result<ChatResponse, nat>, cache: Cache, vars: map<string, string>)

  /**
   * `chat(request)`: validate the overrides, put them in place, initialize
   * under the key of the validated overrides, answer, restore.
   */
  function ChatSpec(cache: Cache, vars: map<string, string>, request: ChatRequest, key: string, clock: Clock, built: Option<Bundle>,
                    ttl: int, interaction: Interaction, freshId: string): (c: ChatOutcome)
    ensures c.result.Err? ==> c.result.error == InternalError
    ensures c.result.Ok? ==> c.result.value.sessionId == SessionId(request.sessionId, freshId)
  {
    var d := ScopeItems(request.envOverrides);
    var scope := EnterScope(vars, d);
    var inside := EnterVars(vars, d);
    var restored := RestoreKeys(inside, scope.original, scope.toRestore);
    if StopAt(d) < |d| then ChatOutcome(Err(InternalError), cache, restored)
    else
      var init := InitSpec(cache, key, clock, built, ttl);
      var result := if init.result.Err? then Err(InternalError) else Respond(interaction, SessionId(request.sessionId, freshId));
      ChatOutcome(result, init.cache, restored)
  }

  method Chat(sessions: SessionManager<Bundle>, env: Environment, request: ChatRequest, clock: Clock, built: Option<Bundle>,
              interaction: Interaction, freshId: string) returns (r: Result<ChatResponse, nat>)
    requires request.envOverrides.Some? ==> UniqueKeys(request.envOverrides.value)
    modifies sessions, env
    ensures var c := ChatSpec(old(sessions.cache), old(env.vars), request, sessions.CacheKey(Validated(request.envOverrides)),
                              clock, built, sessions.ttl, interaction, freshId);
      r == c.result && sessions.cache == c.cache && env.vars == c.vars
  {
    var validated := Validated(request.envOverrides);
    ScopeItemsAllowed(request.envOverrides);
    var scope, failed := Enter(env, AsOverrides(validated));
    EnterScopeWellFormed(old(env.vars), ScopeItems(request.envOverrides));
    if failed {
      Exit(env, scope);
      return Err(InternalError);
    }
    var components := InitializeApp(sessions, validated, clock, built);
    if components.Err? {
      Exit(env, scope);
      return Err(InternalError);
    }
    var sessionId := SessionId(request.sessionId, freshId);
    r := Respond(interaction, sessionId);
    Exit(env, scope);
  }

  /** Nothing in the scope changes the environment, so a chat request leaves it exactly as it found it. */
  lemma {:induction false} ChatRestoresEnvironment(cache: Cache, vars: map<string, string>, request: ChatRequest, key: string, clock: Clock,
                                                   built: Option<Bundle>, ttl: int, interaction: Interaction, freshId: string)
    requires request.envOverrides.Some? ==> UniqueKeys(request.envOverrides.value)
    ensures ChatSpec(cache, vars, request, key, clock, built, ttl, interaction, freshId).vars == vars
  {
    ScopeItemsAllowed(request.envOverrides);
    EnterExitRoundTrip(vars, ScopeItems(request.envOverrides));
  }

  /** Requests whose accepted overrides are the same items, in any order, share one cache entry. */
  lemma SameOverridesShareEntry(sessions: SessionManager<Bundle>, a: Option<Dict<string>>, b: Option<Dict<string>>)
    requires Validated(a).Some? && Validated(b).Some?
    requires UniqueKeys(Validated(a).value) && UniqueKeys(Validated(b).value)
    requires forall x :: x in Validated(a).value <==> x in Validated(b).value
    ensures sessions.CacheKey(Validated(a)) == sessions.CacheKey(Validated(b))
  {
    sessions.KeyIgnoresOrder(Validated(a).value, Validated(b).value);
  }
}
