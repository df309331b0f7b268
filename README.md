# Wavefront Lambda wrapper — a Dafny model

`wavefront_lambda` wraps an AWS Lambda handler so that each invocation reports standard
metrics (cold starts, invocations, errors, duration) to Wavefront. This project models the
three pieces of logic in `wavefront_lambda/__init__.py`. Each one is proved against a
specification:

- **Point-tag extraction** (module `PointTags`). The invoked function's ARN is split on
  `:` and turned into the point-tag dictionary. `Strings` models Python's `str.split` for a
  one-character separator, proves that splitting and joining are inverses, and so lets the
  tags be stated against the AWS Lambda ARN syntax
  (`arn:partition:lambda:region:account:function:name[:alias]`,
  `arn:partition:lambda:region:account:event-source-mappings:id`).
- **Configuration** (module `Configuration`). The environment is a `map<string, string>`.
  It resolves to a configuration or to a `ValueError`. `create_endpoint` chooses between
  the proxy reporter and the direct reporter.
- **The invocation wrapper** (module `LambdaWrapper`). The module globals `is_cold_start`
  and `reg` are the fields of class `Process`, together with two records of what an
  outside observer sees: how many times the handler ran, and every `report_now` flush
  (which reporter was used and the registry it flushed). `Process.Invoke` is imperative,
  like `wavefront_wrapper`. It is proved against the function `Invocation`. `Run` folds
  `Invocation` over any sequence of calls in one process.

The handler is abstracted as its outcome: it returns a value or it raises an exception.
Exceptions reach the caller as `Result` failures: `ValueError(message)`, `IndexError`, or
`TargetRaised(exception)` when the handler's own exception is re-raised.

Behaviour of the code that is easy to misread:

- `WAVEFRONT_PROXY` has no effect. `int(os.getenv('WAVEFRONT_PROXY', "0"))` is evaluated,
  but its value is never assigned to `proxy`, so `proxy` stays `False`. The direct reporter
  is therefore always chosen, an unset `WAVEFRONT_API_TOKEN` always raises, and
  `WAVEFRONT_PORT` is never read. An empty token is accepted, because the check is
  `is None`.
- The reporter's prefix is `""`, because `create_endpoint` is called without one. Instead,
  the metric names carry `aws.lambda.wf.`.
- `wavefront_wrapper` has no `return`. The caller gets `None` even when the handler returns
  a value.
- The alias is appended to `Resource` only when the ARN has exactly eight segments. With
  nine or more segments, `Resource` is segment 6 alone.
- An ARN with fewer than six segments raises `IndexError`. So does an ARN with fewer than
  seven segments when its resource type is `function` or `event-source-mappings`. Any other
  resource type adds no tag and raises nothing.

## Model

| member | source | states |
|---|---|---|
| `Strings.Split` | wavefront_lambda/__init__.py:103 | `str.split(':')` returns at least one segment, one more segment than there are separators, no segment holding the separator, and the segments join back to the input |
| `Strings.SplitJoin` | wavefront_lambda/__init__.py:103 | splitting a string made by joining separator-free parts gives back exactly those parts |
| `PointTags.ExtractTags` | wavefront_lambda/__init__.py:102-116 | fails with `IndexError` exactly when the ARN has fewer than 6 segments, or fewer than 7 when segment 5 is `function`/`event-source-mappings`; on success `LambdaArn`, `FunctionName`, `ExecutedVersion`, `Region` = segment 3 and `accountId` = segment 4; for `function` the keys are the base keys plus `Resource` = segment 6, with `:` and segment 7 appended only when there are exactly 8 segments; for `event-source-mappings` the keys are the base keys plus `EventSourceMappings` = segment 6; for any other type exactly the base keys |
| `PointTags.FunctionArnTags` | wavefront_lambda/__init__.py:100-114 | for every function ARN built by the AWS syntax (with or without alias), extraction gives exactly the five base tags plus `Resource` = name or name`:`alias |
| `PointTags.EventSourceMappingArnTags` | wavefront_lambda/__init__.py:100-116 | for every event-source-mapping ARN built by the AWS syntax, extraction gives exactly the five base tags plus `EventSourceMappings` = the mapping id |
| `Configuration.ResolveConfig` | wavefront_lambda/__init__.py:74-95 | fails exactly when the URL is unset or empty (`ValueError` about `WAVEFRONT_URL`, checked first) or the token is unset (`ValueError` about `WAVEFRONT_API_TOKEN`); on success the server is the URL, proxy is off, the port is 2878, the token is the variable's value (possibly empty), and standard metrics are off exactly when `REPORT_STANDARD_METRICS` is `"False"` or `"false"` |
| `Configuration.ProxySettingsIgnored` | wavefront_lambda/__init__.py:77-92 | setting, changing or removing `WAVEFRONT_PROXY` and `WAVEFRONT_PORT` never changes the resolved configuration |
| `Configuration.CreateEndpoint` | wavefront_lambda/__init__.py:11-21 | returns the proxy reporter exactly when `proxy` holds (host and port), otherwise the direct reporter (server and token); both keep source, tags and prefix |
| `LambdaWrapper.Registry.DeltaCounter` | wavefront_lambda/__init__.py:37-49 | registering a delta counter leaves an existing counter's value alone or adds it at 0, and changes no other counter and no gauge |
| `LambdaWrapper.Registry.Inc` | wavefront_lambda/__init__.py:41-56 | incrementing adds 1 to that counter and changes no other counter and no gauge |
| `LambdaWrapper.Registry.Gauge` | wavefront_lambda/__init__.py:47 | registering a gauge leaves an existing gauge alone or adds it unset, and changes no other gauge and no counter |
| `LambdaWrapper.Registry.SetValue` | wavefront_lambda/__init__.py:61 | setting the gauge marks it measured and changes no other gauge and no counter |
| `LambdaWrapper.Setup` | wavefront_lambda/__init__.py:74-116 | succeeds exactly when configuration and tag extraction both succeed, with their results; a configuration error is raised before the ARN is looked at, otherwise a bad ARN raises `IndexError` |
| `LambdaWrapper.Invocation` | wavefront_lambda/__init__.py:73-134 | one invocation: the handler runs and one flush is appended exactly when setup succeeds, earlier flushes are kept, the cold-start flag never goes from false to true, and the wrapper raises a setup error exactly when setup fails |
| `LambdaWrapper.SetupFailureChangesNothing` | wavefront_lambda/__init__.py:73-120 | a configuration or ARN error leaves the cold-start flag, `reg`, the handler-call count and the flush history unchanged, and the configuration error takes precedence over the ARN error |
| `LambdaWrapper.SetupSuccessFlushesOnce` | wavefront_lambda/__init__.py:118-134 | after a successful setup the handler runs once, exactly one flush is appended, earlier flushes are kept, `reg` is the registry just flushed, and the reporter is the direct one with the URL, token, function name as source, the point tags and an empty prefix |
| `LambdaWrapper.HandlerOutcomePropagates` | wavefront_lambda/__init__.py:51-71 | after a successful setup, the caller gets `None` exactly when the handler returned, and otherwise the handler's exception, unchanged |
| `LambdaWrapper.StandardMetricsRecorded` | wavefront_lambda/__init__.py:34-62 | with standard metrics the flushed registry has `invocations` = 1, `coldstarts` = 1 exactly when the flag was set, `errors` = 1 exactly when the handler raised, the `duration` gauge set, and the flag is cleared; without them the flushed registry is empty and the flag is unchanged |
| `LambdaWrapper.ColdStartReportedOnce` | wavefront_lambda/__init__.py:7-42 | over any sequence of invocations the flag ends true exactly when it started true and no invocation got past setup in standard mode; the total of reported `coldstarts` grows by 1 exactly when it started true and some such invocation happened, and by 0 otherwise |
| `LambdaWrapper.FreshProcessReportsColdStartOnce` | wavefront_lambda/__init__.py:7-42 | a freshly imported module reports `coldstarts` exactly once over any sequence of invocations that includes a standard-mode invocation past setup, and never otherwise |
| `LambdaWrapper.OneFlushPerSetup` | wavefront_lambda/__init__.py:58-71 | over any sequence of invocations the flush history only grows, and the number of new flushes and of handler calls both equal the number of invocations that got past setup |
| `LambdaWrapper.RegistryIsLatestFlushed` | wavefront_lambda/__init__.py:119-120 | over any sequence of invocations, `reg` stays the registry of the latest flush, which is the one installed by the latest invocation that got past setup, or `None` before any |
| `LambdaWrapper.Process.constructor` | wavefront_lambda/__init__.py:7-8 | at import the cold-start flag is set, `reg` is `None`, nothing has run or been flushed, and `reg` is the registry of the latest flush (none) |
| `LambdaWrapper.Process.GetRegistry` | wavefront_lambda/__init__.py:139-140 | returns the current `reg`, which is the registry of the latest flush, or `None` before any |
| `LambdaWrapper.Process.CallLambdaWithStandardMetrics` | wavefront_lambda/__init__.py:34-62 | starting from the fresh registry, the final registry is the standard registry for the old flag and the handler's outcome (`coldstarts` 1 only when the flag was set, `invocations` 1, `errors` 1 only when the handler raised, `duration` set); the flag is cleared, the handler runs once, one flush of that registry is appended, and the handler's value is returned or its exception re-raised |
| `LambdaWrapper.Process.CallLambdaWithoutStandardMetrics` | wavefront_lambda/__init__.py:64-71 | the handler runs once, the registry and flag are untouched, one flush is appended, and the handler's value is returned or its exception re-raised |
| `LambdaWrapper.Process.Invoke` | wavefront_lambda/__init__.py:73-134 | the new globals, history and result are those of `Invocation`, the specification the lemmas above are about, and `reg` stays the registry of the latest flush |

## Left out

- Delta-counter semantics (reporting the increase since the last report and then resetting)
  belong to `wavefront_pyformance.delta`, which is not part of this model. A counter is an
  integer that starts at zero, and the name decoration the library may add is not modelled.
- Reporter construction and `report_now` transmission are network I/O in
  `wavefront_pyformance`. A flush is modelled as a log entry holding the reporter value and
  the registry as it was flushed. Transmission errors are not modelled.
- The duration gauge's value comes from `datetime.now()` and is a float number of
  milliseconds. Only whether the gauge was set is modelled.
- `os.environ` is a parameter of type `map<string, string>`. The parse of `WAVEFRONT_PROXY`
  is left out, because both its value and its `ValueError` are discarded.
- `args[1]` is replaced by a context record of three strings. The `IndexError` raised when
  fewer than two positional arguments are passed is not modelled. Neither are the event
  argument and `**kwargs` forwarded to the handler.
- The handler is abstracted as its outcome. Custom metrics that the handler registers
  through `get_registry` are therefore not modelled. Nor is a handler that itself calls a
  wrapped handler in the same process. Such a nested call rebinds `reg` and, in standard
  mode, finds `is_cold_start` already cleared, in the middle of the outer invocation. The
  code then flushes the inner registry twice: once from the inner call, and again from the
  outer call, because the outer flush reads `reg` only at flush time. The outer registry is
  never reported, so its counts are lost, including the only `coldstarts` increment of a
  cold process. The cold-start and flush lemmas hold only for invocations that do not nest.
- The registry is a value held in the `reg` field, not a shared object. Two things follow.
  A reference obtained from `get_registry` in an earlier invocation is not modelled as still
  pointing at the old registry. A flush reports whatever `reg` holds at flush time, which
  is the invocation's own registry only when no nested wrapped call ran in between.
- Concurrent invocations sharing the module globals are not modelled, because the code has
  no concurrency of its own.
- LambdaWrapper.Process.CallLambdaWithStandardMetrics: requires the freshly installed empty
  registry, since its only caller installs one immediately before calling it.
