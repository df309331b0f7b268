/** Configuration read from the process environment on every invocation, and the
    choice between the proxy and the direct reporter. */
module Configuration {
  import opened Wrappers
  import opened Errors
  import opened PointTags

  type Env = map<string, string>

  const WAVEFRONT_URL := "WAVEFRONT_URL"
  const WAVEFRONT_PROXY := "WAVEFRONT_PROXY"
  const WAVEFRONT_PORT := "WAVEFRONT_PORT"
  const WAVEFRONT_API_TOKEN := "WAVEFRONT_API_TOKEN"
  const REPORT_STANDARD_METRICS := "REPORT_STANDARD_METRICS"

  const DEFAULT_PORT := 2878

  /** The port handed to the proxy reporter: the integer default, or the raw text of
      `WAVEFRONT_PORT` (which `os.environ.get` returns unconverted). */
  datatype Port = PortNumber(number: int) | PortText(text: string)

  datatype Config = Config(
    server: string,
    proxy: bool,
    port: Port,
    token: Option<string>,
    reportStandardMetrics: bool)

  /** `os.environ.get(key)`. */
  function Lookup(env: Env, key: string): Option<string>
  {
    if key in env then Some(env[key]) else None
  }

  /** Resolves the configuration. An unset or empty URL raises first; the value of
      `int(WAVEFRONT_PROXY)` is thrown away, so the proxy is never selected and an unset
      API token always raises (an empty one is accepted); standard metrics are off exactly
      when `REPORT_STANDARD_METRICS` is `"False"` or `"false"`. */
  function ResolveConfig(env: Env): (r: Result<Config, Error>)
    ensures r.Failure? <==>
      WAVEFRONT_URL !in env || env[WAVEFRONT_URL] == "" || WAVEFRONT_API_TOKEN !in env
    ensures WAVEFRONT_URL !in env || env[WAVEFRONT_URL] == "" ==>
      r == Failure(ValueError(URL_NOT_SET))
    ensures WAVEFRONT_URL in env && env[WAVEFRONT_URL] != "" && WAVEFRONT_API_TOKEN !in env ==>
      r == Failure(ValueError(TOKEN_NOT_SET))
    ensures r.Success? ==>
      && r.value.server == env[WAVEFRONT_URL]
      && !r.value.proxy
      && r.value.port == PortNumber(DEFAULT_PORT)
      && r.value.token == Some(env[WAVEFRONT_API_TOKEN])
      && (!r.value.reportStandardMetrics <==>
            REPORT_STANDARD_METRICS in env &&
            (env[REPORT_STANDARD_METRICS] == "False" || env[REPORT_STANDARD_METRICS] == "false"))
  {
    var server := Lookup(env, WAVEFRONT_URL);
    if server.None? || server.value == "" then
      Failure(ValueError(URL_NOT_SET))
    else
      // WAVEFRONT_PROXY is converted to an integer, but the converted value is never
      // assigned and a conversion error is swallowed, so `proxy` keeps `False`.
      var proxy := false;
      var port := if proxy then
          (match Lookup(env, WAVEFRONT_PORT)
           case Some(text) => PortText(text)
           case None => PortNumber(DEFAULT_PORT))
        else PortNumber(DEFAULT_PORT);
      var authToken := if proxy then None else Lookup(env, WAVEFRONT_API_TOKEN);
      if !proxy && authToken.None? then
        Failure(ValueError(TOKEN_NOT_SET))
      else
        var reportStandardMetrics :=
          Lookup(env, REPORT_STANDARD_METRICS) !in [Some("False"), Some("false")];
        Success(Config(server.value, proxy, port, authToken, reportStandardMetrics))
  }

  /** Whatever `WAVEFRONT_PROXY` and `WAVEFRONT_PORT` hold, the configuration is the same. */
  lemma ProxySettingsIgnored(env: Env, proxy: Option<string>, port: Option<string>)
    ensures ResolveConfig(With(With(env, WAVEFRONT_PROXY, proxy), WAVEFRONT_PORT, port))
         == ResolveConfig(env)
  {
  }

  /** `env` with `key` set to `value`, or removed when `value` is `None`. */
  function With(env: Env, key: string, value: Option<string>): Env
  {
    if value.Some? then env[key := value.value] else env - {key}
  }

  /** The metrics endpoint: a proxy reporter or a direct-ingestion reporter, both bound to
      the process-wide registry, the metrics source, the point tags and a name prefix. */
  datatype Reporter =
    | ProxyReporter(host: string, port: Port, source: string, tags: Tags, prefix: string)
    | DirectReporter(server: string, token: Option<string>, source: string, tags: Tags, prefix: string)

  /** `create_endpoint`: the proxy reporter exactly when `proxy` holds, otherwise the
      direct reporter; each keeps the arguments that concern it. */
  function CreateEndpoint(server: string, token: Option<string>, port: Port, proxy: bool,
                          source: string, tags: Tags, prefix: string): (r: Reporter)
    ensures r.ProxyReporter? <==> proxy
    ensures r.source == source && r.tags == tags && r.prefix == prefix
    ensures r.ProxyReporter? ==> r.host == server && r.port == port
    ensures r.DirectReporter? ==> r.server == server && r.token == token
  {
    if proxy then ProxyReporter(server, port, source, tags, prefix)
    else DirectReporter(server, token, source, tags, prefix)
  }
}
