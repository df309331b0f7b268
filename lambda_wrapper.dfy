/** The invocation wrapper: process-wide state (the cold-start flag and the current
    registry), the per-invocation sequence config -> tags -> fresh registry -> reporter ->
    instrumented call -> one flush, and what it does across many invocations. */
module LambdaWrapper {
  import opened Wrappers
  import opened Errors
  import opened PointTags
  import opened Configuration

  const METRIC_PREFIX := "aws.lambda.wf."
  const COLD_STARTS := METRIC_PREFIX + "coldstarts"
  const INVOCATIONS := METRIC_PREFIX + "invocations"
  const DURATION := METRIC_PREFIX + "duration"
  const ERRORS := METRIC_PREFIX + "errors"

  /** A gauge's value: the elapsed milliseconds once `set_value` has run (the number
      itself comes from the wall clock and is not modelled). */
  datatype GaugeValue = Unset | Measured

  /** A metrics registry: counters by name and gauges by name. */
  datatype Registry = Registry(counters: map<string, int>, gauges: map<string, GaugeValue>) {

    /** `delta.delta_counter(reg, name)`: the counter, registered at zero if new. */
    function DeltaCounter(name: string): (r: Registry)
      ensures name in r.counters
      ensures r.counters[name] == if name in counters then counters[name] else 0
      ensures r.counters - {name} == counters - {name} && r.gauges == gauges
    {
      if name in counters then this else this.(counters := counters[name := 0])
    }

    /** `counter.inc()`. */
    function Inc(name: string): (r: Registry)
      requires name in counters
      ensures name in r.counters && r.counters[name] == counters[name] + 1
      ensures r.counters - {name} == counters - {name} && r.gauges == gauges
    {
      this.(counters := counters[name := counters[name] + 1])
    }

    /** `reg.gauge(name)`: the gauge, registered unset if new. */
    function Gauge(name: string): (r: Registry)
      ensures name in r.gauges
      ensures r.gauges[name] == if name in gauges then gauges[name] else Unset
      ensures r.gauges - {name} == gauges - {name} && r.counters == counters
    {
      if name in gauges then this else this.(gauges := gauges[name := Unset])
    }

    /** `gauge.set_value(...)`. */
    function SetValue(name: string): (r: Registry)
      requires name in gauges
      ensures name in r.gauges && r.gauges[name] == Measured
      ensures r.gauges - {name} == gauges - {name} && r.counters == counters
    {
      this.(gauges := gauges[name := Measured])
    }
  }

  /** `MetricsRegistry()`. */
  const EMPTY_REGISTRY := Registry(map[], map[])

  /** Reference definition of the registry a standard-metrics invocation flushes:
      `coldstarts` is 1 only on a cold start, `invocations` is 1, `errors` is 1 only
      when the handler raised, and the `duration` gauge is set. */
  function StandardRegistry(coldStart: bool, raised: bool): Registry
  {
    Registry(
      map[COLD_STARTS := if coldStart then 1 else 0,
          INVOCATIONS := 1,
          ERRORS := if raised then 1 else 0],
      map[DURATION := Measured])
  }

  /** What the wrapped handler does: return a value or raise an exception. */
  datatype TargetOutcome = Returns(value: PyObject) | Raises(exception: PyObject)

  /** One `report_now` call: the reporter used and the registry as it was flushed. */
  datatype Flush = Flush(reporter: Reporter, registry: Registry)

  /** The module globals `is_cold_start` and `reg`, with the observable history:
      how often the handler ran and every flush so far. */
  datatype ProcessState = ProcessState(
    isColdStart: bool,
    reg: Option<Registry>,
    targetCalls: nat,
    flushes: seq<Flush>)

  /** State at import: `is_cold_start = True`, `reg = None`. */
  const INITIAL_STATE := ProcessState(true, None, 0, [])

  /** One invocation of the wrapped handler: environment, context, handler behaviour. */
  datatype Call = Call(env: Env, ctx: Context, target: TargetOutcome)

  /** The state after an invocation, and what the caller sees (`None` or an exception). */
  datatype Invoked = Invoked(state: ProcessState, result: Result<(), Error>)

  /** Everything that precedes the registry: configuration, then point tags. It succeeds
      exactly when both do; a configuration error is raised before the ARN is looked at. */
  function Setup(env: Env, ctx: Context): (r: Result<(Config, Tags), Error>)
    ensures r.Success? <==> ResolveConfig(env).Success? && ExtractTags(ctx).Success?
    ensures ResolveConfig(env).Failure? ==> r == Failure(ResolveConfig(env).error)
    ensures ResolveConfig(env).Success? && ExtractTags(ctx).Failure? ==> r == Failure(IndexError)
    ensures r.Success? ==> r.value == (ResolveConfig(env).value, ExtractTags(ctx).value)
  {
    var config :- ResolveConfig(env);
    var tags :- ExtractTags(ctx);
    Success((config, tags))
  }

  predicate SetsUp(call: Call)
  {
    Setup(call.env, call.ctx).Success?
  }

  predicate RunsStandardMetrics(call: Call)
  {
    SetsUp(call) && Setup(call.env, call.ctx).value.0.reportStandardMetrics
  }

  /** Specification of one invocation of `wavefront_wrapper`. The handler runs and the
      registry is flushed once exactly when setup succeeds, the history only grows, the
      cold-start flag never goes from false to true, and an exception the wrapper raises
      is a setup error exactly when the handler did not run. */
  function Invocation(s: ProcessState, call: Call): (r: Invoked)
    ensures r.state.targetCalls == s.targetCalls + (if SetsUp(call) then 1 else 0)
    ensures |r.state.flushes| == |s.flushes| + (if SetsUp(call) then 1 else 0)
    ensures r.state.flushes[..|s.flushes|] == s.flushes
    ensures r.state.isColdStart ==> s.isColdStart
    ensures r.result.Failure? && !r.result.error.TargetRaised? <==> !SetsUp(call)
  {
    match Setup(call.env, call.ctx)
    case Failure(e) => Invoked(s, Failure(e))
    case Success((config, tags)) =>
      var reporter := CreateEndpoint(config.server, config.token, config.port, config.proxy,
                                     call.ctx.functionName, tags, "");
      var registry := if config.reportStandardMetrics
                      then StandardRegistry(s.isColdStart, call.target.Raises?)
                      else EMPTY_REGISTRY;
      Invoked(
        ProcessState(
          s.isColdStart && !config.reportStandardMetrics,
          Some(registry),
          s.targetCalls + 1,
          s.flushes + [Flush(reporter, registry)]),
        if call.target.Raises? then Failure(TargetRaised(call.target.exception)) else Success(()))
  }

  /** A configuration or ARN error leaves the process exactly as it was: the handler does
      not run, nothing is flushed, `reg` and the cold-start flag are untouched. The
      configuration is checked before the ARN. */
  lemma SetupFailureChangesNothing(s: ProcessState, call: Call)
    requires !SetsUp(call)
    ensures Invocation(s, call).state == s
    ensures Invocation(s, call).result.Failure?
    ensures ResolveConfig(call.env).Failure? ==>
      Invocation(s, call).result == Failure(ResolveConfig(call.env).error)
    ensures ResolveConfig(call.env).Success? ==> Invocation(s, call).result == Failure(IndexError)
  {
  }

  /** After a successful setup the handler runs once and the registry is flushed exactly
      once, through a direct reporter carrying the URL, the API token, the function name
      as source, the point tags and an empty prefix; `reg` is the registry just flushed. */
  lemma SetupSuccessFlushesOnce(s: ProcessState, call: Call)
    requires SetsUp(call)
    ensures var t := Invocation(s, call).state;
      && t.targetCalls == s.targetCalls + 1
      && |t.flushes| == |s.flushes| + 1
      && t.flushes[..|s.flushes|] == s.flushes
      && t.reg == Some(t.flushes[|s.flushes|].registry)
      && t.flushes[|s.flushes|].reporter == DirectReporter(
           call.env[WAVEFRONT_URL], Some(call.env[WAVEFRONT_API_TOKEN]),
           call.ctx.functionName, ExtractTags(call.ctx).value, "")
  {
  }

  /** The handler's exception reaches the caller unchanged; its return value does not:
      the caller always gets `None` otherwise. */
  lemma HandlerOutcomePropagates(s: ProcessState, call: Call)
    requires SetsUp(call)
    ensures Invocation(s, call).result == Success(()) <==> call.target.Returns?
    ensures call.target.Raises? ==>
      Invocation(s, call).result == Failure(TargetRaised(call.target.exception))
  {
  }

  /** With standard metrics the flushed registry counts one invocation, a cold start only
      if the flag was set, an error exactly when the handler raised, and has the duration
      gauge set; the flag is cleared. Without them the registry is flushed empty and the
      flag is left alone. */
  lemma StandardMetricsRecorded(s: ProcessState, call: Call)
    requires SetsUp(call)
    ensures var t := Invocation(s, call).state;
      && (RunsStandardMetrics(call) ==>
            && t.reg == Some(StandardRegistry(s.isColdStart, call.target.Raises?))
            && t.reg.value.counters[INVOCATIONS] == 1
            && (t.reg.value.counters[COLD_STARTS] == 1 <==> s.isColdStart)
            && (t.reg.value.counters[ERRORS] == 1 <==> call.target.Raises?)
            && t.reg.value.gauges[DURATION] == Measured
            && !t.isColdStart)
      && (!RunsStandardMetrics(call) ==> t.reg == Some(EMPTY_REGISTRY) && t.isColdStart == s.isColdStart)
  {
  }

  /** The state after a sequence of invocations in one process. */
  function Run(s: ProcessState, calls: seq<Call>): ProcessState
    decreases |calls|
  {
    if calls == [] then s else Run(Invocation(s, calls[0]).state, calls[1..])
  }

  /** Some invocation in `calls` gets past setup with standard metrics on. */
  predicate AnyStandard(calls: seq<Call>)
  {
    exists i :: 0 <= i < |calls| && RunsStandardMetrics(calls[i])
  }

  /** The value of counter `name` in a registry, zero when it is not registered. */
  function CounterValue(r: Registry, name: string): int
  {
    if name in r.counters then r.counters[name] else 0
  }

  /** The total of the `coldstarts` counter over all flushed registries. */
  function ColdStartsReported(flushes: seq<Flush>): int
  {
    if flushes == [] then 0
    else ColdStartsReported(flushes[..|flushes| - 1]) + CounterValue(flushes[|flushes| - 1].registry, COLD_STARTS)
  }

  /** The number of invocations in `calls` that get past setup. */
  function SetupCount(calls: seq<Call>): nat
  {
    if calls == [] then 0 else (if SetsUp(calls[0]) then 1 else 0) + SetupCount(calls[1..])
  }

  /** Over any sequence of invocations the cold-start flag is cleared by the first
      standard-metrics invocation and never set again, and `coldstarts` is reported
      exactly once in total if the process started cold and such an invocation
      happened, and never otherwise. */
  lemma {:induction false} ColdStartReportedOnce(s: ProcessState, calls: seq<Call>)
    ensures Run(s, calls).isColdStart == (s.isColdStart && !AnyStandard(calls))
    ensures ColdStartsReported(Run(s, calls).flushes)
         == ColdStartsReported(s.flushes) + (if s.isColdStart && AnyStandard(calls) then 1 else 0)
    decreases |calls|
  {
    if calls != [] {
      var c := calls[0];
      var t := Invocation(s, c).state;
      ColdStartReportedOnce(t, calls[1..]);
      if SetsUp(c) {
        var last := t.flushes[|t.flushes| - 1];
        assert t.flushes[..|t.flushes| - 1] == s.flushes;
        assert CounterValue(last.registry, COLD_STARTS)
            == if s.isColdStart && RunsStandardMetrics(c) then 1 else 0;
      }
      assert AnyStandard(calls) == (RunsStandardMetrics(c) || AnyStandard(calls[1..])) by {
        if AnyStandard(calls[1..]) {
          var i :| 0 <= i < |calls[1..]| && RunsStandardMetrics(calls[1..][i]);
          assert RunsStandardMetrics(calls[i + 1]);
        }
        if AnyStandard(calls) && !RunsStandardMetrics(c) {
          var i :| 0 <= i < |calls| && RunsStandardMetrics(calls[i]);
          assert i > 0 && RunsStandardMetrics(calls[1..][i - 1]);
        }
      }
    }
  }

  /** A freshly imported module reports `coldstarts` exactly once if some standard-metrics
      invocation gets past setup, and never otherwise. */
  lemma FreshProcessReportsColdStartOnce(calls: seq<Call>)
    ensures ColdStartsReported(Run(INITIAL_STATE, calls).flushes) == if AnyStandard(calls) then 1 else 0
  {
    ColdStartReportedOnce(INITIAL_STATE, calls);
  }

  /** Over any sequence of invocations the history only grows, and every invocation that
      gets past setup runs the handler once and flushes once. */
  lemma {:induction false} OneFlushPerSetup(s: ProcessState, calls: seq<Call>)
    ensures |Run(s, calls).flushes| == |s.flushes| + SetupCount(calls)
    ensures Run(s, calls).targetCalls == s.targetCalls + SetupCount(calls)
    ensures Run(s, calls).flushes[..|s.flushes|] == s.flushes
    decreases |calls|
  {
    if calls != [] {
      var t := Invocation(s, calls[0]).state;
      OneFlushPerSetup(t, calls[1..]);
      assert t.flushes[..|s.flushes|] == s.flushes;
    }
  }

  /** The registry of the latest flush, `None` before any. */
  function LastFlushed(flushes: seq<Flush>): Option<Registry>
  {
    if flushes == [] then None else Some(flushes[|flushes| - 1].registry)
  }

  /** Over any sequence of invocations `reg` stays the registry of the latest flush: the
      one installed by the latest invocation that got past setup, `None` before any. */
  lemma {:induction false} RegistryIsLatestFlushed(s: ProcessState, calls: seq<Call>)
    requires s.reg == LastFlushed(s.flushes)
    ensures Run(s, calls).reg == LastFlushed(Run(s, calls).flushes)
    decreases |calls|
  {
    if calls != [] {
      RegistryIsLatestFlushed(Invocation(s, calls[0]).state, calls[1..]);
    }
  }

  /** The module's globals, updated in place by each invocation. */
  class Process {
    var isColdStart: bool
    var reg: Option<Registry>
    var targetCalls: nat
    var flushes: seq<Flush>

    function State(): ProcessState
      reads this
    {
      ProcessState(isColdStart, reg, targetCalls, flushes)
    }

    /** `reg` is always the registry of the latest flush, `None` before any. */
    predicate Valid()
      reads this
    {
      reg == LastFlushed(flushes)
    }

    /** Module import: `is_cold_start = True`, `reg = None`. */
    constructor ()
      ensures State() == INITIAL_STATE
      ensures Valid()
    {
      isColdStart := true;
      reg := None;
      targetCalls := 0;
      flushes := [];
    }

    /** `get_registry`: the registry installed by the latest invocation that got past
        setup, `None` before any. */
    method GetRegistry() returns (r: Option<Registry>)
      requires Valid()
      ensures r == reg && r == LastFlushed(flushes)
    {
      r := reg;
    }

    /** `call_lambda_with_standard_metrics`, run on the freshly installed registry. */
    method CallLambdaWithStandardMetrics(reporter: Reporter, target: TargetOutcome)
      returns (r: Result<PyObject, Error>)
      requires reg == Some(EMPTY_REGISTRY)
      modifies this
      ensures !isColdStart
      ensures reg == Some(StandardRegistry(old(isColdStart), target.Raises?))
      ensures targetCalls == old(targetCalls) + 1
      ensures flushes == old(flushes) + [Flush(reporter, reg.value)]
      ensures r == if target.Returns? then Success(target.value) else Failure(TargetRaised(target.exception))
    {
      var wasCold := isColdStart;
      reg := Some(reg.value.DeltaCounter(COLD_STARTS));
      if isColdStart {
        reg := Some(reg.value.Inc(COLD_STARTS));
        isColdStart := false;
      }
      var cold := if wasCold then 1 else 0;
      assert reg.value == Registry(map[COLD_STARTS := cold], map[]);
      reg := Some(reg.value.DeltaCounter(INVOCATIONS));
      reg := Some(reg.value.Inc(INVOCATIONS));
      assert reg.value == Registry(map[COLD_STARTS := cold, INVOCATIONS := 1], map[]);
      reg := Some(reg.value.Gauge(DURATION));
      reg := Some(reg.value.DeltaCounter(ERRORS));
      assert reg.value == Registry(map[COLD_STARTS := cold, INVOCATIONS := 1, ERRORS := 0],
                                   map[DURATION := Unset]);
      // call the handler
      targetCalls := targetCalls + 1;
      if target.Returns? {
        r := Success(target.value);
      } else {
        // except: count the error, then re-raise
        reg := Some(reg.value.Inc(ERRORS));
        r := Failure(TargetRaised(target.exception));
      }
      // finally: set the duration gauge and flush
      reg := Some(reg.value.SetValue(DURATION));
      flushes := flushes + [Flush(reporter, reg.value)];
      assert reg.value.counters == StandardRegistry(wasCold, target.Raises?).counters;
      assert reg.value.gauges == StandardRegistry(wasCold, target.Raises?).gauges;
    }

    /** `call_lambda_without_standard_metrics`: run the handler, flush once. */
    method CallLambdaWithoutStandardMetrics(reporter: Reporter, target: TargetOutcome)
      returns (r: Result<PyObject, Error>)
      requires reg.Some?
      modifies this
      ensures isColdStart == old(isColdStart) && reg == old(reg)
      ensures targetCalls == old(targetCalls) + 1
      ensures flushes == old(flushes) + [Flush(reporter, reg.value)]
      ensures r == if target.Returns? then Success(target.value) else Failure(TargetRaised(target.exception))
    {
      targetCalls := targetCalls + 1;
      if target.Returns? {
        r := Success(target.value);
      } else {
        r := Failure(TargetRaised(target.exception));
      }
      flushes := flushes + [Flush(reporter, reg.value)];
    }

    /** `wavefront_wrapper`: one invocation of the wrapped handler. */
    method Invoke(env: Env, ctx: Context, target: TargetOutcome) returns (r: Result<(), Error>)
      requires Valid()
      modifies this
      ensures Valid()
      ensures State() == Invocation(old(State()), Call(env, ctx, target)).state
      ensures r == Invocation(old(State()), Call(env, ctx, target)).result
    {
      RegistryIsLatestFlushed(State(), [Call(env, ctx, target)]);
      var config := ResolveConfig(env);
      if config.Failure? {
        return Failure(config.error);
      }
      var pointTags := ExtractTags(ctx);
      if pointTags.Failure? {
        return Failure(pointTags.error);
      }
      // a fresh registry for each invocation
      reg := Some(EMPTY_REGISTRY);
      var c := config.value;
      var reporter := CreateEndpoint(c.server, c.token, c.port, c.proxy,
                                     pointTags.value[FUNCTION_NAME], pointTags.value, "");
      var outcome;
      if c.reportStandardMetrics {
        outcome := CallLambdaWithStandardMetrics(reporter, target);
      } else {
        outcome := CallLambdaWithoutStandardMetrics(reporter, target);
      }
      // the wrapper has no `return`: the handler's value is dropped
      r := if outcome.Failure? then Failure(outcome.error) else Success(());
    }
  }
}
