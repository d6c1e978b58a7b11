/**
 * The telemetry manager: one tracer provider with its span processor and its
 * LangChain instrumentor, configured from a `TracerConfig` and torn down again
 * by `shutdown`.
 *
 * The OpenTelemetry objects are opaque tokens. Each constructor or call that
 * can raise is named by a `ConfigureFault`; a configure call is given the one
 * that raises (or `NoFault`), and a shutdown call is told whether one of its
 * `uninstrument()` / `processor.shutdown()` calls raises.
 */
module Instrumentation {
  import opened Outcomes
  import opened Text
  import opened ProcessEnv

  const DefaultModelId := "default_model"
  const DefaultEndpoint := "https://otlp.arize.com/v1"
  const HeadersVar := "OTEL_EXPORTER_OTLP_TRACES_HEADERS"
  const DefaultTracerName := "langgraph_fin_agent"

  /** A resource attribute value: a string, or any other Python value. */
  datatype Attr = Str(s: string) | Opaque(token: nat)

  datatype TracerConfig = TracerConfig(
    spaceId: Option<string>,
    apiKey: Option<string>,
    modelId: string,
    endpoint: string,
    additionalAttributes: Option<map<string, Attr>>,
    useEnvHeaders: bool)

  /** The dataclass defaults with explicit credentials. */
  function WithCredentials(spaceId: Option<string>, apiKey: Option<string>, modelId: string, useEnvHeaders: bool): (c: TracerConfig)
    ensures c.endpoint == DefaultEndpoint && c.additionalAttributes.None?
  {
    TracerConfig(spaceId, apiKey, modelId, DefaultEndpoint, None, useEnvHeaders)
  }

  /** `TracerConfig.from_env(use_env_headers)`: raw environment values, model id defaulted. */
  function FromEnv(vars: map<string, string>, useEnvHeaders: bool): (c: TracerConfig)
    ensures c.spaceId == Lookup(vars, "ARIZE_SPACE_ID") && c.apiKey == Lookup(vars, "ARIZE_API_KEY")
    ensures c.modelId == if "ARIZE_MODEL_ID" in vars then vars["ARIZE_MODEL_ID"] else DefaultModelId
    ensures c.endpoint == DefaultEndpoint && c.additionalAttributes.None? && c.useEnvHeaders == useEnvHeaders
  {
    WithCredentials(Lookup(vars, "ARIZE_SPACE_ID"), Lookup(vars, "ARIZE_API_KEY"),
      Lookup(vars, "ARIZE_MODEL_ID").GetOr(DefaultModelId), useEnvHeaders)
  }

  /** Python truthiness of an optional string: present and non-empty. */
  predicate Truthy(s: Option<string>) {
    s.Some? && s.value != []
  }

  // Opaque tokens for the OpenTelemetry objects.
  datatype Exporter = Exporter(endpoint: string, headers: Option<seq<(string, string)>>)
  datatype Processor = Processor(exporter: Exporter)
  datatype Provider = Provider(resource: map<string, Attr>)
  /** A LangChain instrumentor and the provider it was instrumented with, if any. */
  datatype Instrumentor = Instrumentor(instrumented: Option<Provider>)
  datatype Tracer = Tracer(name: string, provider: Provider)

  /** The step of `configure` that raises, if any, in the order they run. */
  datatype ConfigureFault =
    | NoFault
    | ExporterFails
    | ProcessorFails
    | ProviderFails
    | AddProcessorFails
    | InstrumentorFails
    | InstrumentFails

  datatype ConfigError =
    | MissingCredentials
    | HeadersRejected
    | BuildFailed(step: ConfigureFault)

  /** The fields of a `FlexibleInstrumentation`. */
  datatype Snapshot = Snapshot(
    provider: Option<Provider>,
    processors: seq<Processor>,
    instrumentor: Option<Instrumentor>,
    configured: bool,
    envVarKey: Option<string>)

  /** A fresh manager, and what a completed shutdown leaves. */
  const Reset := Snapshot(None, [], None, false, None)

  /** The state `configure` is meant to keep: unconfigured and empty, or configured with one processor. */
  predicate Tidy(m: Snapshot) {
    if m.configured then m.provider.Some? && |m.processors| == 1 && m.instrumentor.Some?
    else m == Reset
  }

  /** `"space_id=<id>,api_key=<key>"` */
  function HeadersString(spaceId: string, apiKey: string): string {
    "space_id=" + spaceId + ",api_key=" + apiKey
  }

  /** `{"model_id": model_id}` updated with the additional attributes when there are any. */
  function TraceAttributes(config: TracerConfig): (attrs: map<string, Attr>) {
    var base := map["model_id" := Str(config.modelId)];
    match config.additionalAttributes
    case Some(extra) => if |extra| > 0 then base + extra else base
    case None => base
  }

  /** An additional "model_id" wins over the configured one; every other additional attribute is kept. */
  lemma TraceAttributesOverride(config: TracerConfig)
    ensures var attrs := TraceAttributes(config); var extra := config.additionalAttributes.GetOr(map[]);
      && "model_id" in attrs
      && attrs["model_id"] == (if "model_id" in extra then extra["model_id"] else Str(config.modelId))
      && (forall k :: k in extra ==> k in attrs && attrs[k] == extra[k])
      && (forall k :: k in attrs && k != "model_id" ==> k in extra)
  {
  }

  /** The manager and the environment after a call, and what the call returned. */
  datatype Step<R> = Step(m: Snapshot, vars: map<string, string>, result: R)

  /** `shutdown()`. */
  function ShutdownSpec(m: Snapshot, vars: map<string, string>, fails: bool): Step<()> {
    if !m.configured || fails then Step(m, vars, ())
    else
      var vars' := if Truthy(m.envVarKey) && m.envVarKey.value in vars then vars - {m.envVarKey.value} else vars;
      Step(Reset, vars', ())
  }

  /** `configure(config)`, with the shutdown it starts with told whether it fails. */
  function ConfigureSpec(m: Snapshot, vars: map<string, string>, config: TracerConfig, shutdownFails: bool, fault: ConfigureFault): Step<Result<Provider, ConfigError>> {
    var s := if m.configured then ShutdownSpec(m, vars, shutdownFails) else Step(m, vars, ());
    InstallSpec(s.m, s.vars, config, fault)
  }

  /** What `configure` does after its opening shutdown: check, build and install the pipeline. */
  function InstallSpec(m: Snapshot, vars: map<string, string>, config: TracerConfig, fault: ConfigureFault): Step<Result<Provider, ConfigError>> {
    var s := Step(m, vars, ());
    if !Truthy(config.spaceId) || !Truthy(config.apiKey) then Step(s.m, s.vars, Err(MissingCredentials))
    else
      var id, key := config.spaceId.value, config.apiKey.value;
      var headers := HeadersString(id, key);
      if config.useEnvHeaders && !PutEnvAccepts(HeadersVar, headers) then Step(s.m, s.vars, Err(HeadersRejected))
      else
        var m1 := if config.useEnvHeaders then s.m.(envVarKey := Some(HeadersVar)) else s.m;
        var vars1 := if config.useEnvHeaders then s.vars[HeadersVar := headers] else s.vars;
        var exporter := Exporter(config.endpoint, if config.useEnvHeaders then None else Some([("space_id", id), ("api_key", key)]));
        if fault in {ExporterFails, ProcessorFails, ProviderFails} then Step(m1, vars1, Err(BuildFailed(fault)))
        else
          var provider := Provider(TraceAttributes(config));
          var m2 := m1.(provider := Some(provider));
          if fault == AddProcessorFails then Step(m2, vars1, Err(BuildFailed(fault)))
          else
            var m3 := m2.(processors := m2.processors + [Processor(exporter)]);
            if fault == InstrumentorFails then Step(m3, vars1, Err(BuildFailed(fault)))
            else if fault == InstrumentFails then Step(m3.(instrumentor := Some(Instrumentor(None))), vars1, Err(BuildFailed(fault)))
            else Step(m3.(instrumentor := Some(Instrumentor(Some(provider))), configured := true), vars1, Ok(provider))
  }

  /** `get_tracer(name)`: `None` exactly when there is no provider, whatever the flag says. */
  function GetTracerSpec(m: Snapshot, name: string): (t: Option<Tracer>)
    ensures t.None? <==> m.provider.None?
    ensures t.Some? ==> t.value == Tracer(name, m.provider.value)
  {
    if m.provider.None? then None else Some(Tracer(name, m.provider.value))
  }

  /** `with temporary_config(config)` around a body that leaves the manager alone. */
  function TemporaryConfigSpec(m: Snapshot, vars: map<string, string>, config: TracerConfig,
                               shutdownFails: bool, fault: ConfigureFault, finalShutdownFails: bool): Step<Result<Provider, ConfigError>> {
    var c := ConfigureSpec(m, vars, config, shutdownFails, fault);
    var s := ShutdownSpec(c.m, c.vars, finalShutdownFails);
    Step(s.m, s.vars, c.result)
  }

  // ---------------------------------------------------------------------------
  // Properties
  // ---------------------------------------------------------------------------

  /**
   * Unconfigured, or with a raising step, shutdown changes nothing; otherwise
   * it resets every field and removes the variable it recorded, and no other.
   */
  lemma ShutdownResets(m: Snapshot, vars: map<string, string>, fails: bool)
    ensures var s := ShutdownSpec(m, vars, fails);
      && (!m.configured || fails ==> s.m == m && s.vars == vars)
      && (m.configured && !fails ==> s.m == Reset && !s.m.configured)
      && (m.configured && !fails && m.envVarKey == Some(HeadersVar) ==> HeadersVar !in s.vars)
      && (forall k :: m.envVarKey != Some(k) ==> Lookup(s.vars, k) == Lookup(vars, k))
  {
  }

  /**
   * Configure succeeds exactly when no step raises: credentials present, the
   * headers variable accepted when used, and no constructor failing. Then the
   * manager is configured, holds the returned provider and one more processor
   * than after its opening shutdown, and `get_tracer` returns a tracer.
   */
  lemma {:induction false} ConfigureSucceeds(m: Snapshot, vars: map<string, string>, config: TracerConfig, shutdownFails: bool, fault: ConfigureFault)
    ensures var c := ConfigureSpec(m, vars, config, shutdownFails, fault);
      var s := if m.configured then ShutdownSpec(m, vars, shutdownFails) else Step(m, vars, ());
      && (c.result.Ok? <==>
            Truthy(config.spaceId) && Truthy(config.apiKey) && fault == NoFault &&
            (config.useEnvHeaders ==> PutEnvAccepts(HeadersVar, HeadersString(config.spaceId.value, config.apiKey.value))))
      && (c.result.Ok? ==>
            && c.m.configured
            && c.m.provider == Some(c.result.value)
            && c.result.value.resource == TraceAttributes(config)
            && |c.m.processors| == |s.m.processors| + 1
            && GetTracerSpec(c.m, DefaultTracerName) == Some(Tracer(DefaultTracerName, c.result.value)))
  {
  }

  /**
   * With `use_env_headers` a successful configure sets the headers variable and
   * records it; without, the headers go to the exporter and the environment is
   * as the opening shutdown left it.
   */
  lemma {:induction false} ConfigureHeaders(m: Snapshot, vars: map<string, string>, config: TracerConfig, shutdownFails: bool)
    requires Truthy(config.spaceId) && Truthy(config.apiKey)
    ensures var c := ConfigureSpec(m, vars, config, shutdownFails, NoFault);
      var s := if m.configured then ShutdownSpec(m, vars, shutdownFails) else Step(m, vars, ());
      var id, key := config.spaceId.value, config.apiKey.value;
      && (c.result.Ok? && config.useEnvHeaders ==>
            && c.vars == s.vars[HeadersVar := HeadersString(id, key)]
            && c.m.envVarKey == Some(HeadersVar)
            && c.m.processors[|c.m.processors| - 1].exporter.headers.None?)
      && (!config.useEnvHeaders ==>
            && c.result.Ok?
            && c.vars == s.vars
            && c.m.envVarKey == s.m.envVarKey
            && c.m.processors[|c.m.processors| - 1].exporter == Exporter(config.endpoint, Some([("space_id", id), ("api_key", key)])))
  {
  }

  /**
   * Missing or empty credentials raise `ValueError` after the opening
   * shutdown, so the manager ends unconfigured unless that shutdown failed.
   */
  lemma {:induction false} ConfigureRejectsMissingCredentials(m: Snapshot, vars: map<string, string>, config: TracerConfig, shutdownFails: bool, fault: ConfigureFault)
    requires !Truthy(config.spaceId) || !Truthy(config.apiKey)
    ensures var c := ConfigureSpec(m, vars, config, shutdownFails, fault);
      && c.result == Err(MissingCredentials)
      && (m.configured && !shutdownFails ==> c.m == Reset)
      && (!m.configured ==> c.m == m && c.vars == vars)
      && (c.m.configured <==> m.configured && shutdownFails)
  {
  }

  /** The environment variable a manager has recorded, if any, is the headers variable. */
  predicate RecordsHeadersOnly(m: Snapshot) {
    m.envVarKey.None? || m.envVarKey == Some(HeadersVar)
  }

  /** Shutdown and configure change no environment variable but the headers variable. */
  lemma {:induction false} ConfigureTouchesOnlyHeaders(m: Snapshot, vars: map<string, string>, config: TracerConfig, shutdownFails: bool, fault: ConfigureFault)
    requires RecordsHeadersOnly(m)
    ensures var c := ConfigureSpec(m, vars, config, shutdownFails, fault);
      && RecordsHeadersOnly(c.m)
      && forall k :: k != HeadersVar ==> Lookup(c.vars, k) == Lookup(vars, k)
  {
    ShutdownResets(m, vars, shutdownFails);
  }

  /** Without faults, configure and shutdown keep a tidy manager tidy: at most one processor. */
  lemma {:induction false} ConfigureKeepsTidy(m: Snapshot, vars: map<string, string>, config: TracerConfig)
    requires Tidy(m)
    ensures Tidy(ConfigureSpec(m, vars, config, false, NoFault).m)
    ensures |ConfigureSpec(m, vars, config, false, NoFault).m.processors| <= 1
  {
  }

  /** Configuring a reset manager leaves it holding at most one processor, whatever step raises. */
  lemma ConfigureFromResetHoldsOne(vars: map<string, string>, config: TracerConfig, shutdownFails: bool, fault: ConfigureFault)
    ensures |ConfigureSpec(Reset, vars, config, shutdownFails, fault).m.processors| <= 1
    ensures fault == NoFault ==> Tidy(ConfigureSpec(Reset, vars, config, shutdownFails, fault).m)
  {
  }

  lemma ShutdownKeepsTidy(m: Snapshot, vars: map<string, string>, fails: bool)
    requires Tidy(m)
    ensures Tidy(ShutdownSpec(m, vars, fails).m)
  {
  }

  /**
   * The one-processor promise does not survive a raising `instrument()`: the
   * manager is left unconfigured but holding a processor, and the next
   * configure does not shut it down, so it then holds two.
   */
  lemma InstrumentFailureLeaksProcessor(vars: map<string, string>)
    ensures var config := WithCredentials(Some("s"), Some("k"), DefaultModelId, false);
      var first := ConfigureSpec(Reset, vars, config, false, InstrumentFails);
      var second := ConfigureSpec(first.m, first.vars, config, false, NoFault);
      && !first.m.configured && |first.m.processors| == 1
      && second.result.Ok? && |second.m.processors| == 2
  {
  }

  /** Nor does it survive a raising shutdown: the reset is skipped and the next processor is appended. */
  lemma ShutdownFailureLeaksProcessor(vars: map<string, string>)
    ensures var config := WithCredentials(Some("s"), Some("k"), DefaultModelId, false);
      var first := ConfigureSpec(Reset, vars, config, false, NoFault);
      var second := ConfigureSpec(first.m, first.vars, config, true, NoFault);
      && first.m.configured && second.result.Ok? && |second.m.processors| == 2
  {
  }

  /**
   * `temporary_config` always ends unconfigured when its final shutdown
   * completes, and it does not bring back a configuration that was active before.
   */
  lemma {:induction false} TemporaryConfigEndsUnconfigured(m: Snapshot, vars: map<string, string>, config: TracerConfig,
                                          shutdownFails: bool, fault: ConfigureFault)
    ensures var t := TemporaryConfigSpec(m, vars, config, shutdownFails, fault, false);
      && !t.m.configured
      && (m.configured && t.result.Ok? ==> t.m == Reset && t.m != m)
  {
  }

  // ---------------------------------------------------------------------------
  // The manager object
  // ---------------------------------------------------------------------------

  class FlexibleInstrumentation {
    var provider: Option<Provider>
    var spanProcessors: seq<Processor>
    var langchainInstrumentor: Option<Instrumentor>
    var isConfigured: bool
    var envVarKey: Option<string>

    function State(): Snapshot
      reads this
    {
      Snapshot(provider, spanProcessors, langchainInstrumentor, isConfigured, envVarKey)
    }

    constructor()
      ensures State() == Reset
    {
      provider := None;
      spanProcessors := [];
      langchainInstrumentor := None;
      isConfigured := false;
      envVarKey := None;
    }

    /** `is_configured()` */
    function IsConfigured(): bool
      reads this
    {
      isConfigured
    }

    /** `get_tracer(name)` */
    function GetTracer(name: string): (t: Option<Tracer>)
      reads this
      ensures t == GetTracerSpec(State(), name)
    {
      if provider.None? then None else Some(Tracer(name, provider.value))
    }

    /** `shutdown()`: a raising uninstrument or processor shutdown skips the rest. */
    method Shutdown(env: Environment, fails: bool)
      modifies this, env
      ensures var s := ShutdownSpec(old(State()), old(env.vars), fails); State() == s.m && env.vars == s.vars
    {
      if isConfigured {
        if fails {
          return;
        }
        if envVarKey.Some? && envVarKey.value != [] && envVarKey.value in env.vars {
          env.vars := env.vars - {envVarKey.value};
        }
        provider := None;
        spanProcessors := [];
        langchainInstrumentor := None;
        isConfigured := false;
        envVarKey := None;
      }
    }

    /** `configure(config)` */
    method Configure(env: Environment, config: TracerConfig, shutdownFails: bool, fault: ConfigureFault) returns (r: Result<Provider, ConfigError>)
      modifies this, env
      ensures var c := ConfigureSpec(old(State()), old(env.vars), config, shutdownFails, fault);
        State() == c.m && env.vars == c.vars && r == c.result
    {
      if isConfigured {
        Shutdown(env, shutdownFails);
      }
      r := Install(env, config, fault);
    }

    /** The part of `configure` after the opening shutdown. */
    method Install(env: Environment, config: TracerConfig, fault: ConfigureFault) returns (r: Result<Provider, ConfigError>)
      modifies this, env
      ensures var c := InstallSpec(old(State()), old(env.vars), config, fault);
        State() == c.m && env.vars == c.vars && r == c.result
    {
      if !Truthy(config.spaceId) || !Truthy(config.apiKey) {
        return Err(MissingCredentials);
      }
      var exporter;
      if config.useEnvHeaders {
        var headers := HeadersString(config.spaceId.value, config.apiKey.value);
        if !PutEnvAccepts(HeadersVar, headers) {
          return Err(HeadersRejected);
        }
        env.vars := env.vars[HeadersVar := headers];
        envVarKey := Some(HeadersVar);
        exporter := Exporter(config.endpoint, None);
      } else {
        exporter := Exporter(config.endpoint, Some([("space_id", config.spaceId.value), ("api_key", config.apiKey.value)]));
      }
      if fault in {ExporterFails, ProcessorFails, ProviderFails} {
        return Err(BuildFailed(fault));
      }
      var attributes := TraceAttributes(config);
      var processor := Processor(exporter);
      var p := Provider(attributes);
      provider := Some(p);
      if fault == AddProcessorFails {
        return Err(BuildFailed(fault));
      }
      spanProcessors := spanProcessors + [processor];
      if fault == InstrumentorFails {
        return Err(BuildFailed(fault));
      }
      langchainInstrumentor := Some(Instrumentor(None));
      if fault == InstrumentFails {
        return Err(BuildFailed(fault));
      }
      langchainInstrumentor := Some(Instrumentor(Some(p)));
      isConfigured := true;
      return Ok(p);
    }

    /** `reconfigure(config)`: exactly `configure`. */
    method Reconfigure(env: Environment, config: TracerConfig, shutdownFails: bool, fault: ConfigureFault) returns (r: Result<Provider, ConfigError>)
      modifies this, env
      ensures var c := ConfigureSpec(old(State()), old(env.vars), config, shutdownFails, fault);
        State() == c.m && env.vars == c.vars && r == c.result
    {
      r := Configure(env, config, shutdownFails, fault);
    }

    /**
     * `with temporary_config(config)`: configure, run the body (which is not
     * modelled and leaves the manager alone), then shut down on every path.
     */
    method TemporaryConfig(env: Environment, config: TracerConfig, shutdownFails: bool, fault: ConfigureFault, finalShutdownFails: bool)
      returns (r: Result<Provider, ConfigError>)
      modifies this, env
      ensures var t := TemporaryConfigSpec(old(State()), old(env.vars), config, shutdownFails, fault, finalShutdownFails);
        State() == t.m && env.vars == t.vars && r == t.result
    {
      r := Configure(env, config, shutdownFails, fault);
      Shutdown(env, finalShutdownFails);
    }
  }

  /** `setup_flexible_instrumentation(config)`: the given config, or the environment's with env headers. */
  method SetupFlexibleInstrumentation(manager: FlexibleInstrumentation, env: Environment, config: Option<TracerConfig>,
                                      shutdownFails: bool, fault: ConfigureFault) returns (r: Result<Provider, ConfigError>)
    modifies manager, env
    ensures var cfg := if config.Some? then config.value else FromEnv(old(env.vars), true);
      var c := ConfigureSpec(old(manager.State()), old(env.vars), cfg, shutdownFails, fault);
      manager.State() == c.m && env.vars == c.vars && r == c.result
  {
    var cfg := if config.Some? then config.value else FromEnv(env.vars, true);
    r := manager.Configure(env, cfg, shutdownFails, fault);
  }
}
