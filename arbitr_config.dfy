/**
 * The arbitration server's settings: `Settings.from_env` reads and
 * normalises the environment, and `get_settings`/`reload_settings` keep the
 * last settings built in a one-slot cache.
 */
module ArbitrConfig {
  import opened Wrappers
  import opened Strings
  import opened Common

  const DefaultBaseUrl: string := "https://service.api-assist.com/parser/arbitr_api"
  const DefaultHost: string := "0.0.0.0"
  const DefaultServiceName: string := "mcp-arbitr-api"
  const KeyRequired: string := "ARBITR_API_KEY is required in prod mode"

  datatype Settings = Settings(
    apiKey: string,
    mode: string,
    baseUrl: string,
    timeout: real,
    host: string,
    port: int,
    otelEndpoint: Option<string>,
    otelServiceName: string,
    enableMetrics: bool)

  /** ARBITR_MODE lower-cased; anything but "test" or "prod" becomes "test". */
  function NormalizeMode(raw: string): (mode: string)
    ensures mode == "test" || mode == "prod"
    ensures mode == "prod" <==> Lower(raw) == "prod"
  {
    var m := Lower(raw);
    if m == "test" || m == "prod" then m else "test"
  }

  /** `s.rstrip("/")` */
  function StripTrailingSlashes(s: string): (r: string)
    ensures StartsWith(s, r)
    ensures r == [] || r[|r| - 1] != '/'
    ensures forall i :: |r| <= i < |s| ==> s[i] == '/'
    decreases |s|
  {
    if s != [] && s[|s| - 1] == '/' then StripTrailingSlashes(s[..|s| - 1]) else s
  }

  /** `os.getenv("ENABLE_METRICS", "true").lower() not in {"0", "false", "no"}` */
  predicate MetricsEnabled(raw: string) {
    Lower(raw) !in {"0", "false", "no"}
  }

  /** `float(s)`, raising ValueError on text that is not a number. */
  function FloatArg(lib: Library, s: string): (r: Result<real>)
    ensures r.Ok? <==> lib.parseFloat(s).Some?
    ensures r.Ok? ==> r.value == lib.parseFloat(s).value
  {
    match lib.parseFloat(s)
    case Some(x) => Ok(x)
    case None => Err(Raised("ValueError", "could not convert string to float: '" + s + "'"))
  }

  /** `int(s)`, raising ValueError on text that is not an integer. */
  function IntArg(lib: Library, s: string): (r: Result<int>)
    ensures r.Ok? <==> lib.parseInt(s).Some?
    ensures r.Ok? ==> r.value == lib.parseInt(s).value
  {
    match lib.parseInt(s)
    case Some(n) => Ok(n)
    case None => Err(Raised("ValueError", "invalid literal for int() with base 10: '" + s + "'"))
  }

  function TimeoutText(env: Env): string {
    GetEnv(env, "ARBITR_TIMEOUT", "15")
  }

  function PortText(env: Env): string {
    GetEnv(env, "PORT", "8080")
  }

  /** `Settings.from_env()`: the environment read in order, the first `float`/`int` failure, then the prod key check. */
  function FromEnv(env: Env, lib: Library): Result<Settings> {
    var mode := NormalizeMode(GetEnv(env, "ARBITR_MODE", "test"));
    var apiKey := GetEnv(env, "ARBITR_API_KEY", "");
    var baseUrl := StripTrailingSlashes(GetEnv(env, "ARBITR_BASE_URL", DefaultBaseUrl));
    var timeout :- FloatArg(lib, TimeoutText(env));
    var host := GetEnv(env, "HOST", DefaultHost);
    var port :- IntArg(lib, PortText(env));
    var otelEndpoint := if "OTEL_ENDPOINT" in env then Some(env["OTEL_ENDPOINT"]) else None;
    var otelServiceName := GetEnv(env, "OTEL_SERVICE_NAME", DefaultServiceName);
    var enableMetrics := MetricsEnabled(GetEnv(env, "ENABLE_METRICS", "true"));
    if mode == "prod" && apiKey == "" then Err(Raised("ValueError", KeyRequired))
    else Ok(Settings(apiKey, mode, baseUrl, timeout, host, port, otelEndpoint, otelServiceName, enableMetrics))
  }

  /** The two numbers parse. */
  predicate Parses(env: Env, lib: Library) {
    lib.parseFloat(TimeoutText(env)).Some? && lib.parseInt(PortText(env)).Some?
  }

  /** Settings are built exactly when the numbers parse and prod mode has a key. */
  lemma FromEnvSucceeds(env: Env, lib: Library)
    ensures FromEnv(env, lib).Ok? <==>
      Parses(env, lib) && (NormalizeMode(GetEnv(env, "ARBITR_MODE", "test")) == "prod" ==> GetEnv(env, "ARBITR_API_KEY", "") != "")
  {
  }

  /** prod mode without ARBITR_API_KEY fails with ValueError; every settings object in prod mode holds a key. */
  lemma ProdNeedsKey(env: Env, lib: Library)
    ensures Parses(env, lib) && Lower(GetEnv(env, "ARBITR_MODE", "test")) == "prod" && GetEnv(env, "ARBITR_API_KEY", "") == "" ==>
      FromEnv(env, lib) == Err(Raised("ValueError", KeyRequired))
    ensures FromEnv(env, lib).Ok? && FromEnv(env, lib).value.mode == "prod" ==> FromEnv(env, lib).value.apiKey != ""
  {
  }

  /** The mode is always one of the two, prod only when asked for. */
  lemma ModeCoerced(env: Env, lib: Library)
    requires FromEnv(env, lib).Ok?
    ensures FromEnv(env, lib).value.mode in {"test", "prod"}
    ensures FromEnv(env, lib).value.mode == "prod" <==> Lower(GetEnv(env, "ARBITR_MODE", "test")) == "prod"
  {
  }

  /** The base URL is the configured one without its trailing slashes. */
  lemma BaseUrlNormalised(env: Env, lib: Library)
    requires FromEnv(env, lib).Ok?
    ensures var url, raw := FromEnv(env, lib).value.baseUrl, GetEnv(env, "ARBITR_BASE_URL", DefaultBaseUrl);
      StartsWith(raw, url) && (url == [] || url[|url| - 1] != '/') &&
      forall i :: |url| <= i < |raw| ==> raw[i] == '/'
  {
    var raw := GetEnv(env, "ARBITR_BASE_URL", DefaultBaseUrl);
    assert FromEnv(env, lib).value.baseUrl == StripTrailingSlashes(raw);
  }

  /** An empty environment: test mode, no key, the default endpoint, host, port, service name, and metrics on. */
  lemma Defaults(lib: Library)
    requires lib.parseFloat("15") == Some(15.0) && lib.parseInt("8080") == Some(8080)
    ensures FromEnv(map[], lib) ==
      Ok(Settings("", "test", DefaultBaseUrl, 15.0, DefaultHost, 8080, None, DefaultServiceName, true))
  {
    assert Lower("test") == "test";
    assert Lower("true") == "true";
    assert DefaultBaseUrl[|DefaultBaseUrl| - 1] == 'i';
  }

  /** Metrics are off for "0", "false" and "no" in any letter case, and on otherwise. */
  lemma MetricsSwitch(raw: string)
    ensures !MetricsEnabled(raw) <==> Lower(raw) == "0" || Lower(raw) == "false" || Lower(raw) == "no"
    ensures !MetricsEnabled("FALSE") && !MetricsEnabled("No") && MetricsEnabled("true") && MetricsEnabled("")
  {
    assert Lower("FALSE") == "false";
    assert Lower("No") == "no";
    assert Lower("true") == "true";
  }

  /**
   * `get_settings`, an `lru_cache(maxsize=1)` over `Settings.from_env`, and
   * `reload_settings`, which clears it. A call that raises caches nothing.
   */
  class SettingsCache {
    var cached: Option<Settings>

    constructor()
      ensures cached == None
    {
      cached := None;
    }

    /** The cached settings if there are any, otherwise settings built from the current environment. */
    method Get(env: Env, lib: Library) returns (r: Result<Settings>)
      modifies this
      ensures old(cached).Some? ==> r == Ok(old(cached).value) && cached == old(cached)
      ensures old(cached).None? ==> r == FromEnv(env, lib) && cached == (if r.Ok? then Some(r.value) else None)
    {
      if cached.Some? {
        return Ok(cached.value);
      }
      r := FromEnv(env, lib);
      if r.Ok? {
        cached := Some(r.value);
      }
    }

    /** Drops what is cached and rebuilds from the current environment. */
    method Reload(env: Env, lib: Library) returns (r: Result<Settings>)
      modifies this
      ensures r == FromEnv(env, lib)
      ensures cached == (if r.Ok? then Some(r.value) else None)
    {
      cached := None;
      r := Get(env, lib);
    }
  }
}
