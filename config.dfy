/**
 * Loading the application configuration from environment variables.
 *
 * The process environment is a map from variable name to value; a variable
 * that is not set reads as "", exactly as `os.Getenv` reports it.
 */
module Config {
  import opened Base
  import opened GoStrings

  type Env = map<string, string>

  /** The value of a variable, or "" when it is not set. */
  function Getenv(env: Env, name: string): (v: string)
    ensures name !in env ==> v == ""
    ensures name in env ==> v == env[name]
  {
    if name in env then env[name] else ""
  }

  datatype Config = Config(
    faceitAPIKey: string,
    defaultPlayer: string,
    logLevel: string,
    kafkaEnabled: bool,
    kafkaBrokers: seq<string>,
    kafkaTopic: string,
    productionMode: bool,
    logToStdout: bool,
    matchesPerPage: int,
    maxMatchesToLoad: int,
    cacheEnabled: bool,
    cacheTTL: int,            // minutes
    comparisonMatches: int,
    telemetryEnabled: bool,
    otlpEndpoint: string,
    serviceName: string,
    serviceVersion: string,
    environment: string
  )

  const MissingKeyError := "FACEIT_API_KEY environment variable is required"
  const DefaultBroker := "localhost:9092"

  /** The variable's value, or the default when it is empty or not set. */
  function OrDefault(env: Env, name: string, default: string): (v: string)
    ensures Getenv(env, name) != "" ==> v == Getenv(env, name)
    ensures Getenv(env, name) == "" ==> v == default
  {
    var s := Getenv(env, name);
    if s == "" then default else s
  }

  /** A positive integer setting: the parsed value when the text is a decimal integer
      above zero, the default otherwise (also when the text is empty). */
  function PositiveSetting(s: string, default: int): (v: int)
    requires default > 0
    ensures v > 0
    ensures v != default ==> Atoi(s) == Some(v)
  {
    if s != "" then
      match Atoi(s)
      case Some(parsed) => if parsed > 0 then parsed else default
      case None => default
    else default
  }

  /** The broker list: "" gives the single default broker, anything else its comma-separated pieces. */
  function Brokers(s: string): (b: seq<string>)
    ensures |b| >= 1
    ensures forall k :: 0 <= k < |b| ==> ',' !in b[k]
  {
    var parts := Split(s, ',');
    if |parts| == 1 && parts[0] == "" then [DefaultBroker] else parts
  }

  /** Load: an error without an API key; otherwise every setting read with its default. */
  function Load(env: Env): (r: Result<Config>)
    ensures r.Err? <==> Getenv(env, "FACEIT_API_KEY") == ""
    ensures r.Err? ==> r.msg == MissingKeyError
    ensures r.Ok? ==> r.value.faceitAPIKey == Getenv(env, "FACEIT_API_KEY")
    ensures r.Ok? ==> r.value.defaultPlayer == Getenv(env, "FACEIT_DEFAULT_PLAYER")
  {
    var apiKey := Getenv(env, "FACEIT_API_KEY");
    if apiKey == "" then Err(MissingKeyError)
    else
      Ok(Config(
        apiKey,
        Getenv(env, "FACEIT_DEFAULT_PLAYER"),
        OrDefault(env, "LOG_LEVEL", "info"),
        Getenv(env, "KAFKA_ENABLED") == "true",
        Brokers(Getenv(env, "KAFKA_BROKERS")),
        OrDefault(env, "KAFKA_TOPIC", "faceit-cli-logs"),
        Getenv(env, "PRODUCTION_MODE") == "true",
        Getenv(env, "LOG_TO_STDOUT") != "false",
        PositiveSetting(Getenv(env, "MATCHES_PER_PAGE"), 10),
        PositiveSetting(Getenv(env, "MAX_MATCHES_TO_LOAD"), 100),
        Getenv(env, "CACHE_ENABLED") == "true",
        PositiveSetting(Getenv(env, "CACHE_TTL"), 30),
        PositiveSetting(Getenv(env, "COMPARISON_MATCHES"), 20),
        Getenv(env, "TELEMETRY_ENABLED") == "true",
        OrDefault(env, "OTLP_ENDPOINT", "http://localhost:4318/v1/traces"),
        OrDefault(env, "SERVICE_NAME", "faceit-cli"),
        OrDefault(env, "SERVICE_VERSION", "dev"),
        OrDefault(env, "ENVIRONMENT", "development")))
  }

  /** A positive value written in decimal is taken as it is. */
  lemma PositiveSettingReadsValue(n: int, default: int)
    requires default > 0 && 0 < n <= MaxInt64
    ensures PositiveSetting(Itoa(n), default) == n
  {
    AtoiItoa(n);
  }

  /** Zero, negative values and text that is not a decimal integer give the default. */
  lemma PositiveSettingFallsBack(s: string, default: int)
    requires default > 0
    ensures PositiveSetting(s, default) == default <==> Atoi(s).None? || Atoi(s).value <= 0 || Atoi(s).value == default
  {
  }

  /** The broker list is the default exactly for "", and otherwise joins back to the variable's value. */
  lemma BrokersMeaning(s: string)
    ensures Brokers(s) == [DefaultBroker] <==> s == "" || s == DefaultBroker
    ensures s != "" ==> Join(Brokers(s), ',') == s
  {
    JoinSplit(s, ',');
    if s == DefaultBroker {
      SplitNoSeparator(s, ',');
    }
  }

  /** The numeric settings are always positive, with 10, 100, 30 and 20 when unset. */
  lemma LoadNumericSettings(env: Env)
    requires Load(env).Ok?
    ensures var c := Load(env).value;
      c.matchesPerPage > 0 && c.maxMatchesToLoad > 0 && c.cacheTTL > 0 && c.comparisonMatches > 0
    ensures "MATCHES_PER_PAGE" !in env ==> Load(env).value.matchesPerPage == 10
    ensures "MAX_MATCHES_TO_LOAD" !in env ==> Load(env).value.maxMatchesToLoad == 100
    ensures "CACHE_TTL" !in env ==> Load(env).value.cacheTTL == 30
    ensures "COMPARISON_MATCHES" !in env ==> Load(env).value.comparisonMatches == 20
  {
  }

  /** The switches: four are on only for exactly "true", logging to stdout is off only for exactly "false". */
  lemma LoadSwitches(env: Env)
    requires Load(env).Ok?
    ensures Load(env).value.kafkaEnabled <==> Getenv(env, "KAFKA_ENABLED") == "true"
    ensures Load(env).value.productionMode <==> Getenv(env, "PRODUCTION_MODE") == "true"
    ensures Load(env).value.cacheEnabled <==> Getenv(env, "CACHE_ENABLED") == "true"
    ensures Load(env).value.telemetryEnabled <==> Getenv(env, "TELEMETRY_ENABLED") == "true"
    ensures !Load(env).value.logToStdout <==> Getenv(env, "LOG_TO_STDOUT") == "false"
  {
  }

  /** Only the API key is required: an environment with just the key loads every default. */
  lemma LoadDefaults(key: string)
    requires key != ""
    ensures Load(map["FACEIT_API_KEY" := key]) == Ok(Config(
      key, "", "info", false, [DefaultBroker], "faceit-cli-logs", false, true, 10, 100, false, 30, 20,
      false, "http://localhost:4318/v1/traces", "faceit-cli", "dev", "development"))
  {
    assert Split("", ',') == [""];
  }

  /** A non-empty variable overrides the textual settings' defaults. */
  lemma LoadTextSettings(env: Env)
    requires Load(env).Ok?
    ensures Load(env).value.logLevel == OrDefault(env, "LOG_LEVEL", "info")
    ensures Load(env).value.kafkaTopic == OrDefault(env, "KAFKA_TOPIC", "faceit-cli-logs")
    ensures Load(env).value.otlpEndpoint == OrDefault(env, "OTLP_ENDPOINT", "http://localhost:4318/v1/traces")
    ensures Load(env).value.serviceName == OrDefault(env, "SERVICE_NAME", "faceit-cli")
    ensures Load(env).value.serviceVersion == OrDefault(env, "SERVICE_VERSION", "dev")
    ensures Load(env).value.environment == OrDefault(env, "ENVIRONMENT", "development")
    ensures Getenv(env, "KAFKA_BROKERS") != "" ==> Join(Load(env).value.kafkaBrokers, ',') == Getenv(env, "KAFKA_BROKERS")
  {
    BrokersMeaning(Getenv(env, "KAFKA_BROKERS"));
  }
}
