/** The tool's configuration: one immutable record, built once from the process
    environment with the source's `|| default` fallbacks. Integer parsing of the
    environment strings happens before this model: a numeric entry arrives
    already parsed (None stands for `NaN`, what `parseInt` yields for a missing
    or non-numeric entry). */
module Configuration {
  import opened JsValues

  /** The candidate status-field names tried in priority order by default. */
  const DEFAULT_CANDIDATES: seq<string> :=
    ["status", "resourceStatus", "accountStatus", "state", "accessLevel"]

  /** `statusMap.active` of the built-in status map. */
  const STATUS_MAP_ACTIVE: string := "ACTIVE_RESOURCE"

  datatype Endpoints = Endpoints(base: string, resource: string, query: string, update: string)

  /** The environment entries the configuration reads; None when unset. */
  datatype Env = Env(
    statusFields: Option<string>,
    apiBase: Option<string>,
    resourceEndpoint: Option<string>,
    queryEndpoint: Option<string>,
    updateEndpoint: Option<string>,
    searchParam: Option<string>,
    minDelay: Option<int>,
    maxDelay: Option<int>,
    requestTimeout: Option<int>,
    maxRetries: Option<int>,
    useAuthHeader: Option<string>,
    authType: Option<string>,
    logLevel: Option<string>,
    language: Option<string>,
    authToken: Option<string>,
    updateMethod: Option<string>,
    targetStatus: Option<string>)

  datatype Config = Config(
    candidates: seq<string>,
    endpoints: Endpoints,
    searchParam: string,
    minDelay: int,
    maxDelay: int,
    requestTimeout: int,
    maxRetries: int,
    useAuthHeader: bool,
    authType: string,
    logLevel: string,
    language: string,
    authToken: string,
    updateMethod: string,
    target: string)

  /** `process.env.X || d`: an unset or empty entry gives the default. */
  function EnvOr(entry: Option<string>, d: string): (r: string)
    ensures entry.Some? && entry.value != "" ==> r == entry.value
    ensures entry.None? || entry.value == "" ==> r == d
  {
    if entry.Some? && entry.value != "" then entry.value else d
  }

  /** `parseInt(process.env.X) || d`: `NaN` and `0` both give the default, so a
      non-zero default can never be replaced by zero. */
  function ParsedOr(parsed: Option<int>, d: int): (r: int)
    ensures d != 0 ==> r != 0
    ensures parsed == Some(0) ==> r == d
    ensures parsed.Some? && parsed.value != 0 ==> r == parsed.value
    ensures r == d || (parsed.Some? && r == parsed.value)
  {
    if parsed.Some? && parsed.value != 0 then parsed.value else d
  }

  /** `getTargetStatus`: `statusMap.active || process.env.TARGET_STATUS || "ACTIVE"`. */
  function TargetStatus(active: string, env: Option<string>): (t: string)
    ensures t != ""
    ensures active != "" ==> t == active
  {
    if active != "" then active else EnvOr(env, "ACTIVE")
  }

  /** The configuration object of the tool, read from the environment. */
  function FromEnv(env: Env): (c: Config)
    ensures c.candidates == (if env.statusFields.Some? then Split(env.statusFields.value) else DEFAULT_CANDIDATES)
    ensures |c.candidates| > 0
    ensures c.endpoints == Endpoints(EnvOr(env.apiBase, ""), EnvOr(env.resourceEndpoint, ""),
                                     EnvOr(env.queryEndpoint, ""), EnvOr(env.updateEndpoint, ""))
    ensures c.searchParam == EnvOr(env.searchParam, "filter")
    ensures c.minDelay == ParsedOr(env.minDelay, 3000) && c.maxDelay == ParsedOr(env.maxDelay, 7000)
    ensures c.requestTimeout == ParsedOr(env.requestTimeout, 10000)
    ensures c.maxRetries == ParsedOr(env.maxRetries, 2)
    ensures c.authType == EnvOr(env.authType, "Bearer") && c.authToken == EnvOr(env.authToken, "")
    ensures c.logLevel == EnvOr(env.logLevel, "info") && c.language == EnvOr(env.language, "zh_TW")
    ensures c.updateMethod == EnvOr(env.updateMethod, "PATCH")
    ensures c.maxRetries != 0 && c.minDelay != 0 && c.maxDelay != 0 && c.requestTimeout != 0
    ensures env.maxRetries == Some(0) ==> c.maxRetries == 2
    ensures c.useAuthHeader <==> env.useAuthHeader != Some("false")
    ensures c.target == STATUS_MAP_ACTIVE
    ensures c.updateMethod != "" && c.authType != ""
  {
    Config(
      // `split` always yields a non-empty, hence truthy, array, so a set
      // STATUS_FIELDS always replaces the defaults, even when it is empty
      if env.statusFields.Some? then Split(env.statusFields.value) else DEFAULT_CANDIDATES,
      Endpoints(EnvOr(env.apiBase, ""), EnvOr(env.resourceEndpoint, ""),
                EnvOr(env.queryEndpoint, ""), EnvOr(env.updateEndpoint, "")),
      EnvOr(env.searchParam, "filter"),
      ParsedOr(env.minDelay, 3000),
      ParsedOr(env.maxDelay, 7000),
      ParsedOr(env.requestTimeout, 10000),
      ParsedOr(env.maxRetries, 2),
      env.useAuthHeader != Some("false"),
      EnvOr(env.authType, "Bearer"),
      EnvOr(env.logLevel, "info"),
      EnvOr(env.language, "zh_TW"),
      EnvOr(env.authToken, ""),
      EnvOr(env.updateMethod, "PATCH"),
      TargetStatus(STATUS_MAP_ACTIVE, env.targetStatus))
  }

  /** A set but empty STATUS_FIELDS still replaces the defaults: the only
      candidate is the empty field name. */
  lemma EmptyStatusFieldsReplacesDefaults(env: Env)
    requires env.statusFields == Some("")
    ensures FromEnv(env).candidates == [""]
  {
    assert FirstWhere("", (ch: char) => ch == ',') == 0;
  }
}
