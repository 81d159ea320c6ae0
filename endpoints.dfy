/** `ServiceEndpointsService`: the endpoint settings read once from the
    process environment when the service is built, each falling back to
    its default. */
module ServiceEndpoints {
  import opened Wrappers
  import opened Text
  import opened EnvConfiguration

  /** The settings as a value, field for field. */
  datatype Endpoints = Endpoints(
    baseUrl: string,
    timeout: int,
    retryCount: int,
    healthPath: string,
    healthCheckInterval: string,
    healthCheckTimeout: string,
    reactivationPeriod: string,
    loadBalancingPolicy: string,
    allowedOrigins: string,
    allowedMethods: string,
    allowedHeaders: string)

  /** The property initialisers of `ServiceEndpointsConfig`. */
  const Defaults := Endpoints(
    "http://127.0.0.1:8000", 120, 3, "/api/system/server-info",
    "00:01:00", "00:00:30", "00:00:10", "RoundRobin",
    "*", "GET,POST,PUT,DELETE,OPTIONS", "*")

  /** `int.TryParse(text, out v) ? v : fallback`; an unset variable does
      not parse. */
  function TryParseOr(text: Option<string>, fallback: int): (r: int)
    ensures ParseI32(text).Some? ==> r == ParseI32(text).value
    ensures ParseI32(text).None? ==> r == fallback
  {
    match ParseI32(text)
    case Some(v) => v
    case None => fallback
  }

  /** The settings `LoadFromEnvironment` arrives at: the service URL
      before the base URL before the default, integers only when they
      parse, every other field its variable or its default. */
  function FromEnvironment(env: Environment): (e: Endpoints)
    ensures e.timeout == TryParseOr(Lookup(env, "TEXT_GENERATE_TIMEOUT"), Defaults.timeout)
    ensures e.retryCount == TryParseOr(Lookup(env, "TEXT_GENERATE_RETRY_COUNT"), Defaults.retryCount)
  {
    Endpoints(
      Lookup(env, "TEXT_GENERATE_SERVICE_URL").GetOr(Lookup(env, "TEXT_GENERATE_BASE_URL").GetOr(Defaults.baseUrl)),
      TryParseOr(Lookup(env, "TEXT_GENERATE_TIMEOUT"), Defaults.timeout),
      TryParseOr(Lookup(env, "TEXT_GENERATE_RETRY_COUNT"), Defaults.retryCount),
      Lookup(env, "TEXT_GENERATE_HEALTH_PATH").GetOr(Defaults.healthPath),
      Lookup(env, "HEALTH_CHECK_INTERVAL").GetOr(Defaults.healthCheckInterval),
      Lookup(env, "HEALTH_CHECK_TIMEOUT").GetOr(Defaults.healthCheckTimeout),
      Lookup(env, "PASSIVE_HEALTH_REACTIVATION_PERIOD").GetOr(Defaults.reactivationPeriod),
      Lookup(env, "LOAD_BALANCING_POLICY").GetOr(Defaults.loadBalancingPolicy),
      Lookup(env, "CORS_ALLOWED_ORIGINS").GetOr(Defaults.allowedOrigins),
      Lookup(env, "CORS_ALLOWED_METHODS").GetOr(Defaults.allowedMethods),
      Lookup(env, "CORS_ALLOWED_HEADERS").GetOr(Defaults.allowedHeaders))
  }

  /** `ServiceEndpointsConfig`: a mutable settings object. */
  class ServiceEndpointsConfig {
    var textGenerateBaseUrl: string
    var textGenerateTimeout: int
    var textGenerateRetryCount: int
    var textGenerateHealthPath: string
    var healthCheckInterval: string
    var healthCheckTimeout: string
    var passiveHealthReactivationPeriod: string
    var loadBalancingPolicy: string
    var allowedOrigins: string
    var allowedMethods: string
    var allowedHeaders: string

    /** The fields as a value. */
    function Contents(): Endpoints
      reads this
    {
      Endpoints(textGenerateBaseUrl, textGenerateTimeout, textGenerateRetryCount, textGenerateHealthPath,
        healthCheckInterval, healthCheckTimeout, passiveHealthReactivationPeriod, loadBalancingPolicy,
        allowedOrigins, allowedMethods, allowedHeaders)
    }

    /** `new ServiceEndpointsConfig()`: every field at its initialiser. */
    constructor ()
      ensures Contents() == Defaults
    {
      textGenerateBaseUrl := "http://127.0.0.1:8000";
      textGenerateTimeout := 120;
      textGenerateRetryCount := 3;
      textGenerateHealthPath := "/api/system/server-info";
      healthCheckInterval := "00:01:00";
      healthCheckTimeout := "00:00:30";
      passiveHealthReactivationPeriod := "00:00:10";
      loadBalancingPolicy := "RoundRobin";
      allowedOrigins := "*";
      allowedMethods := "GET,POST,PUT,DELETE,OPTIONS";
      allowedHeaders := "*";
    }
  }

  /** `LoadFromEnvironment`: a fresh config whose fields are overwritten
      one after another, each from its variable or its current value. */
  method LoadFromEnvironment(env: Environment) returns (config: ServiceEndpointsConfig)
    ensures fresh(config)
    ensures config.Contents() == FromEnvironment(env)
  {
    config := new ServiceEndpointsConfig();
    LoadServiceFields(config, env);
    LoadPolicyFields(config, env);
  }

  /** The first half of `LoadFromEnvironment`: the downstream service's
      URL, timeout, retry count and health path. */
  method LoadServiceFields(config: ServiceEndpointsConfig, env: Environment)
    modifies config
    ensures config.Contents() == old(config.Contents()).(
      baseUrl := Lookup(env, "TEXT_GENERATE_SERVICE_URL")
        .GetOr(Lookup(env, "TEXT_GENERATE_BASE_URL").GetOr(old(config.textGenerateBaseUrl))),
      timeout := TryParseOr(Lookup(env, "TEXT_GENERATE_TIMEOUT"), old(config.textGenerateTimeout)),
      retryCount := TryParseOr(Lookup(env, "TEXT_GENERATE_RETRY_COUNT"), old(config.textGenerateRetryCount)),
      healthPath := Lookup(env, "TEXT_GENERATE_HEALTH_PATH").GetOr(old(config.textGenerateHealthPath)))
  {
    config.textGenerateBaseUrl := Lookup(env, "TEXT_GENERATE_SERVICE_URL")
      .GetOr(Lookup(env, "TEXT_GENERATE_BASE_URL").GetOr(config.textGenerateBaseUrl));
    var timeout := ParseI32(Lookup(env, "TEXT_GENERATE_TIMEOUT"));
    if timeout.Some? {
      config.textGenerateTimeout := timeout.value;
    }
    var retryCount := ParseI32(Lookup(env, "TEXT_GENERATE_RETRY_COUNT"));
    if retryCount.Some? {
      config.textGenerateRetryCount := retryCount.value;
    }
    config.textGenerateHealthPath := Lookup(env, "TEXT_GENERATE_HEALTH_PATH").GetOr(config.textGenerateHealthPath);
  }

  /** The second half: health-check timing, load balancing and CORS. */
  method LoadPolicyFields(config: ServiceEndpointsConfig, env: Environment)
    modifies config
    ensures config.Contents() == old(config.Contents()).(
      healthCheckInterval := Lookup(env, "HEALTH_CHECK_INTERVAL").GetOr(old(config.healthCheckInterval)),
      healthCheckTimeout := Lookup(env, "HEALTH_CHECK_TIMEOUT").GetOr(old(config.healthCheckTimeout)),
      reactivationPeriod := Lookup(env, "PASSIVE_HEALTH_REACTIVATION_PERIOD").GetOr(old(config.passiveHealthReactivationPeriod)),
      loadBalancingPolicy := Lookup(env, "LOAD_BALANCING_POLICY").GetOr(old(config.loadBalancingPolicy)),
      allowedOrigins := Lookup(env, "CORS_ALLOWED_ORIGINS").GetOr(old(config.allowedOrigins)),
      allowedMethods := Lookup(env, "CORS_ALLOWED_METHODS").GetOr(old(config.allowedMethods)),
      allowedHeaders := Lookup(env, "CORS_ALLOWED_HEADERS").GetOr(old(config.allowedHeaders)))
  {
    config.healthCheckInterval := Lookup(env, "HEALTH_CHECK_INTERVAL").GetOr(config.healthCheckInterval);
    config.healthCheckTimeout := Lookup(env, "HEALTH_CHECK_TIMEOUT").GetOr(config.healthCheckTimeout);
    config.passiveHealthReactivationPeriod :=
      Lookup(env, "PASSIVE_HEALTH_REACTIVATION_PERIOD").GetOr(config.passiveHealthReactivationPeriod);
    config.loadBalancingPolicy := Lookup(env, "LOAD_BALANCING_POLICY").GetOr(config.loadBalancingPolicy);
    config.allowedOrigins := Lookup(env, "CORS_ALLOWED_ORIGINS").GetOr(config.allowedOrigins);
    config.allowedMethods := Lookup(env, "CORS_ALLOWED_METHODS").GetOr(config.allowedMethods);
    config.allowedHeaders := Lookup(env, "CORS_ALLOWED_HEADERS").GetOr(config.allowedHeaders);
  }

  /** `ServiceEndpointsService`: the config is loaded once, by the
      constructor, and handed out as is. */
  class ServiceEndpointsService {
    const config: ServiceEndpointsConfig

    constructor (env: Environment)
      ensures fresh(config)
      ensures config.Contents() == FromEnvironment(env)
    {
      var loaded := LoadFromEnvironment(env);
      config := loaded;
    }

    /** `GetConfig`: the stored object itself, not a copy. */
    method GetConfig() returns (c: ServiceEndpointsConfig)
      ensures c == config
    {
      c := config;
    }
  }

  // ---------------------------------------------------------------------
  // Properties of the settings

  /** Without any variable every field keeps its initialiser. */
  lemma DefaultsWithoutVariables()
    ensures FromEnvironment(map[]) == Defaults
  {
  }

  /** The base URL: `TEXT_GENERATE_SERVICE_URL` when set, otherwise
      `TEXT_GENERATE_BASE_URL` when set, otherwise the default. */
  lemma BaseUrlPrecedence(env: Environment)
    ensures "TEXT_GENERATE_SERVICE_URL" in env ==>
      FromEnvironment(env).baseUrl == env["TEXT_GENERATE_SERVICE_URL"]
    ensures "TEXT_GENERATE_SERVICE_URL" !in env && "TEXT_GENERATE_BASE_URL" in env ==>
      FromEnvironment(env).baseUrl == env["TEXT_GENERATE_BASE_URL"]
    ensures "TEXT_GENERATE_SERVICE_URL" !in env && "TEXT_GENERATE_BASE_URL" !in env ==>
      FromEnvironment(env).baseUrl == "http://127.0.0.1:8000"
  {
  }

  /** A set but unparsable timeout is ignored, not an error. */
  lemma UnparsableTimeoutKeepsDefault(env: Environment)
    requires Lookup(env, "TEXT_GENERATE_TIMEOUT") == Some("abc")
    ensures FromEnvironment(env).timeout == 120
  {
    assert NumberBody("abc") == "abc";
    assert !IsDigit('a');
  }

  /** A timeout written as a decimal integer is taken as is. */
  lemma NumericTimeoutTaken(env: Environment, seconds: i32)
    requires seconds >= 0 && Lookup(env, "TEXT_GENERATE_TIMEOUT") == Some(NatToString(seconds))
    ensures FromEnvironment(env).timeout == seconds
  {
    ParseI32OfRendering(seconds);
  }

  /** The settings read here and the options `AddAppConfiguration` reads
      agree on the base URL unless `TEXT_GENERATE_SERVICE_URL` is set, but
      their defaults differ: a 120 s timeout against 30 s, and a one-minute
      health-check interval against thirty seconds. */
  lemma AgreementWithAppOptions(env: Environment)
    ensures "TEXT_GENERATE_SERVICE_URL" !in env && TextGenerateOptions(env).Ok? ==>
      FromEnvironment(env).baseUrl == TextGenerateOptions(env).value.baseUrl
    ensures TextGenerateOptions(map[]).Ok? && FromEnvironment(map[]).timeout != TextGenerateOptions(map[]).value.timeout
    ensures FromEnvironment(map[]).healthCheckInterval != HealthCheckOptions(map[]).interval
  {
    DefaultOptions();
  }
}
