// The producer service's configuration: settings read from the environment with defaults, then
// the validator's field rules.
module ProducerConfig {
  import opened Wrappers
  import opened Env

  datatype ServerConfig = ServerConfig(
    address: string, readTimeout: int, writeTimeout: int, idleTimeout: int, shutdownTimeout: int,
    maxHeaderBytes: int)

  datatype KafkaConfig = KafkaConfig(
    brokers: seq<string>, topic: string, clientId: string, batchSize: int, batchTimeout: int,
    maxRetries: int, retryBackoff: int, compressionType: string, requiredAcks: int)

  datatype LoggingConfig = LoggingConfig(level: string, format: string)

  datatype MetricsConfig = MetricsConfig(enabled: bool, port: string, path: string)

  datatype AppConfig = AppConfig(name: string, version: string, environment: string, debug: bool)

  datatype Config = Config(server: ServerConfig, kafka: KafkaConfig, logging: LoggingConfig, metrics: MetricsConfig, app: AppConfig)

  /** The validator's field rules, read from the struct tags. */
  predicate TagsHold(c: Config) {
    && c.server.address != ""
    && Second <= c.server.readTimeout <= 300 * Second && Second <= c.server.writeTimeout <= 300 * Second
    && Second <= c.server.idleTimeout <= 600 * Second && Second <= c.server.shutdownTimeout <= 60 * Second
    && 1024 <= c.server.maxHeaderBytes <= 1048576
    && |c.kafka.brokers| >= 1 && c.kafka.topic != "" && c.kafka.clientId != ""
    && 1 <= c.kafka.batchSize <= 1000 && Millisecond <= c.kafka.batchTimeout <= 10 * Second
    && 0 <= c.kafka.maxRetries <= 10 && Millisecond <= c.kafka.retryBackoff <= 30 * Second
    && c.kafka.compressionType in {"none", "gzip", "snappy", "lz4", "zstd"}
    && c.kafka.requiredAcks in {-1, 0, 1}
    && c.logging.level in {"debug", "info", "warn", "error"} && c.logging.format in {"json", "text"}
    && c.metrics.port != "" && c.metrics.path != ""
    && c.app.name != "" && c.app.version != "" && c.app.environment in {"development", "staging", "production"}
  }

  /** Config.Validate; the validator library's own message is not modelled. */
  function Validate(c: Config): (r: Option<string>)
    ensures r.None? <==> TagsHold(c)
    ensures r.Some? ==> r == Some("configuration validation failed")
  {
    if TagsHold(c) then None else Some("configuration validation failed")
  }

  function BrokersFrom(env: Environment, key: string, defaultValue: seq<string>): seq<string> {
    if Getenv(env, key) == "" then defaultValue else BrokerList(env[key])
  }

  /** The configuration Load builds before validating it; `pd` is time.ParseDuration. */
  function Build(env: Environment, pd: string -> Option<int>): Config {
    Config(
      ServerConfig(
        GetEnv(env, "SERVER_ADDRESS", ":8080"), GetDurationEnv(env, "SERVER_READ_TIMEOUT", 15 * Second, pd),
        GetDurationEnv(env, "SERVER_WRITE_TIMEOUT", 15 * Second, pd),
        GetDurationEnv(env, "SERVER_IDLE_TIMEOUT", 60 * Second, pd),
        GetDurationEnv(env, "SERVER_SHUTDOWN_TIMEOUT", 30 * Second, pd),
        GetIntEnv(env, "SERVER_MAX_HEADER_BYTES", 1048576)),
      KafkaConfig(
        BrokersFrom(env, "KAFKA_BROKER_LIST", ["localhost:9092"]), GetEnv(env, "KAFKA_TOPIC", "events"),
        GetEnv(env, "KAFKA_CLIENT_ID", "producer-service"), GetIntEnv(env, "KAFKA_BATCH_SIZE", 100),
        GetDurationEnv(env, "KAFKA_BATCH_TIMEOUT", 10 * Millisecond, pd), GetIntEnv(env, "KAFKA_MAX_RETRIES", 3),
        GetDurationEnv(env, "KAFKA_RETRY_BACKOFF", 100 * Millisecond, pd),
        GetEnv(env, "KAFKA_COMPRESSION", "snappy"), GetIntEnv(env, "KAFKA_REQUIRED_ACKS", 1)),
      LoggingConfig(GetEnv(env, "LOG_LEVEL", "info"), GetEnv(env, "LOG_FORMAT", "json")),
      MetricsConfig(
        GetBoolEnv(env, "METRICS_ENABLED", true), GetEnv(env, "METRICS_PORT", ":9090"),
        GetEnv(env, "METRICS_PATH", "/metrics")),
      AppConfig(
        GetEnv(env, "APP_NAME", "producer-service"), GetEnv(env, "APP_VERSION", "1.0.0"),
        GetEnv(env, "APP_ENV", "development"), GetBoolEnv(env, "APP_DEBUG", false)))
  }

  /** Load: the built configuration if it validates, otherwise the wrapped validation error. */
  method Load(env: Environment, pd: string -> Option<int>) returns (r: Result<Config, string>)
    ensures TagsHold(Build(env, pd)) ==> r == Ok(Build(env, pd))
    ensures !TagsHold(Build(env, pd)) ==> r == Err("invalid configuration: " + "configuration validation failed")
  {
    var brokers := GetBrokersEnv(env, "KAFKA_BROKER_LIST", ["localhost:9092"]);
    var built := Build(env, pd);
    var config := built.(kafka := built.kafka.(brokers := brokers));
    assert config == built;
    var err := Validate(config);
    if err.Some? {
      return Err("invalid configuration: " + err.value);
    }
    r := Ok(config);
  }

  /** With nothing set, the defaults lie within the field rules. */
  lemma DefaultsWithinBounds(pd: string -> Option<int>)
    ensures TagsHold(Build(map[], pd))
    ensures var c := Build(map[], pd);
      c.kafka.batchSize == 100 && c.kafka.maxRetries == 3 && c.kafka.requiredAcks == 1
      && c.kafka.compressionType == "snappy"
  {
  }

  predicate IsProduction(c: Config) {
    c.app.environment == "production"
  }

  predicate IsDevelopment(c: Config) {
    c.app.environment == "development"
  }

  lemma EnvironmentsExclusive(c: Config)
    ensures !(IsProduction(c) && IsDevelopment(c))
  {
  }
}
