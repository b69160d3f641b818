// The consumer application's configuration: every setting read from the environment with a
// default, then the validator's field rules and two cross-field checks.
module ConsumerConfig {
  import opened Wrappers
  import opened Numbers
  import opened Text
  import opened Env

  datatype AppConfig = AppConfig(name: string, version: string, environment: string, debug: bool)

  datatype ServerConfig = ServerConfig(address: string, readTimeout: int, writeTimeout: int, idleTimeout: int)

  datatype KafkaConfig = KafkaConfig(
    brokers: seq<string>, topic: string, groupId: string, minBytes: int, maxBytes: int, maxWait: int,
    startOffset: int, commitInterval: int, securityProtocol: string, saslMechanism: string,
    saslUsername: string, saslPassword: string, fetchMin: int, fetchMax: int, fetchDefault: int,
    maxWaitTime: int, retryBackoff: int, maxRetries: int)

  datatype ConsumerSettings = ConsumerSettings(
    workerCount: int, batchSize: int, processTimeout: int, retryAttempts: int, retryDelay: int,
    retryBackoffMax: int, maxConcurrency: int, bufferSize: int, flushInterval: int,
    shutdownTimeout: int, drainTimeout: int)

  datatype MetricsConfig = MetricsConfig(enabled: bool, port: string, path: string, namespace: string, subsystem: string)

  datatype LoggingConfig = LoggingConfig(
    level: string, format: string, output: string, filename: string, maxSize: int, maxBackups: int,
    maxAge: int, compress: bool)

  datatype HealthConfig = HealthConfig(enabled: bool, checkInterval: int, timeout: int, failureThreshold: int)

  datatype Config = Config(
    app: AppConfig, server: ServerConfig, kafka: KafkaConfig, consumer: ConsumerSettings,
    metrics: MetricsConfig, logging: LoggingConfig, health: HealthConfig)

  /** The validator's field rules, read from the struct tags. A `required` bool must be true. */
  predicate TagsHold(c: Config) {
    && c.app.name != "" && c.app.version != "" && c.app.environment in {"development", "staging", "production"}
    && c.server.address != ""
    && c.server.readTimeout >= Second && c.server.writeTimeout >= Second && c.server.idleTimeout >= Second
    && |c.kafka.brokers| >= 1 && c.kafka.topic != "" && c.kafka.groupId != ""
    && c.kafka.minBytes >= 1 && c.kafka.maxBytes >= 1024 && c.kafka.maxWait >= 100 * Millisecond
    && c.kafka.startOffset in {-2, -1} && c.kafka.commitInterval >= 100 * Millisecond
    && c.kafka.fetchMin >= 1 && c.kafka.fetchMax >= 1024 && c.kafka.fetchDefault >= 1024
    && c.kafka.maxWaitTime >= 100 * Millisecond && c.kafka.retryBackoff >= 100 * Millisecond
    && c.kafka.maxRetries >= 0
    && 1 <= c.consumer.workerCount <= 100 && 1 <= c.consumer.batchSize <= 10000
    && c.consumer.processTimeout >= Second && 0 <= c.consumer.retryAttempts <= 10
    && c.consumer.retryDelay >= 100 * Millisecond && c.consumer.retryBackoffMax >= Second
    && 1 <= c.consumer.maxConcurrency <= 1000 && c.consumer.bufferSize >= 1
    && c.consumer.flushInterval >= 100 * Millisecond
    && c.consumer.shutdownTimeout >= Second && c.consumer.drainTimeout >= Second
    && c.metrics.enabled && c.metrics.port != "" && c.metrics.path != ""
    && c.metrics.namespace != "" && c.metrics.subsystem != ""
    && c.logging.level in {"debug", "info", "warn", "error"} && c.logging.format in {"json", "text"}
    && c.logging.output in {"stdout", "stderr", "file"}
    && c.logging.maxSize >= 1 && c.logging.maxBackups >= 0 && c.logging.maxAge >= 1
    && c.health.enabled && c.health.checkInterval >= Second && c.health.timeout >= Second
    && c.health.failureThreshold >= 1
  }

  /**
   * Config.Validate: the field rules (the validator library's own message is not modelled),
   * then workers against concurrency, then max bytes against min bytes.
   */
  function Validate(c: Config): (r: Option<string>)
    ensures r.None? <==> TagsHold(c) && c.consumer.workerCount <= c.consumer.maxConcurrency && c.kafka.minBytes <= c.kafka.maxBytes
    ensures !TagsHold(c) ==> r == Some("validation failed")
    ensures TagsHold(c) && c.consumer.workerCount > c.consumer.maxConcurrency ==>
      r == Some("worker count (" + FormatInt(c.consumer.workerCount) + ") cannot exceed max concurrency ("
                + FormatInt(c.consumer.maxConcurrency) + ")")
    ensures TagsHold(c) && c.consumer.workerCount <= c.consumer.maxConcurrency && c.kafka.maxBytes < c.kafka.minBytes ==>
      r == Some("kafka max bytes (" + FormatInt(c.kafka.maxBytes) + ") cannot be less than min bytes ("
                + FormatInt(c.kafka.minBytes) + ")")
  {
    if !TagsHold(c) then Some("validation failed")
    else if c.consumer.workerCount > c.consumer.maxConcurrency then
      Some("worker count (" + FormatInt(c.consumer.workerCount) + ") cannot exceed max concurrency ("
           + FormatInt(c.consumer.maxConcurrency) + ")")
    else if c.kafka.maxBytes < c.kafka.minBytes then
      Some("kafka max bytes (" + FormatInt(c.kafka.maxBytes) + ") cannot be less than min bytes ("
           + FormatInt(c.kafka.minBytes) + ")")
    else None
  }

  /** The brokers getBrokersEnv reads. */
  function BrokersFrom(env: Environment, key: string, defaultValue: seq<string>): seq<string> {
    if Getenv(env, key) == "" then defaultValue else BrokerList(env[key])
  }

  /** The configuration Load builds before validating it; `pd` is time.ParseDuration. */
  function Build(env: Environment, pd: string -> Option<int>): Config {
    Config(
      AppConfig(
        GetEnv(env, "APP_NAME", "consumer-service"), GetEnv(env, "APP_VERSION", "1.0.0"),
        GetEnv(env, "APP_ENV", "development"), GetBoolEnv(env, "APP_DEBUG", false)),
      ServerConfig(
        GetEnv(env, "SERVER_ADDRESS", ":8080"), GetDurationEnv(env, "SERVER_READ_TIMEOUT", 15 * Second, pd),
        GetDurationEnv(env, "SERVER_WRITE_TIMEOUT", 15 * Second, pd),
        GetDurationEnv(env, "SERVER_IDLE_TIMEOUT", 60 * Second, pd)),
      KafkaConfig(
        BrokersFrom(env, "KAFKA_BROKER_LIST", ["localhost:9092"]), GetEnv(env, "KAFKA_TOPIC", "events"),
        GetEnv(env, "KAFKA_GROUP_ID", "consumer-service"), GetIntEnv(env, "KAFKA_MIN_BYTES", 1),
        GetIntEnv(env, "KAFKA_MAX_BYTES", 10485760), GetDurationEnv(env, "KAFKA_MAX_WAIT", Second, pd),
        GetIntEnv(env, "KAFKA_START_OFFSET", -1), GetDurationEnv(env, "KAFKA_COMMIT_INTERVAL", Second, pd),
        GetEnv(env, "KAFKA_SECURITY_PROTOCOL", "PLAINTEXT"), GetEnv(env, "KAFKA_SASL_MECHANISM", ""),
        GetEnv(env, "KAFKA_SASL_USERNAME", ""), GetEnv(env, "KAFKA_SASL_PASSWORD", ""),
        GetIntEnv(env, "KAFKA_FETCH_MIN", 1), GetIntEnv(env, "KAFKA_FETCH_MAX", 1048576),
        GetIntEnv(env, "KAFKA_FETCH_DEFAULT", 1048576),
        GetDurationEnv(env, "KAFKA_MAX_WAIT_TIME", 500 * Millisecond, pd),
        GetDurationEnv(env, "KAFKA_RETRY_BACKOFF", 100 * Millisecond, pd), GetIntEnv(env, "KAFKA_MAX_RETRIES", 3)),
      ConsumerSettings(
        GetIntEnv(env, "CONSUMER_WORKER_COUNT", 5), GetIntEnv(env, "CONSUMER_BATCH_SIZE", 100),
        GetDurationEnv(env, "CONSUMER_PROCESS_TIMEOUT", 30 * Second, pd),
        GetIntEnv(env, "CONSUMER_RETRY_ATTEMPTS", 3), GetDurationEnv(env, "CONSUMER_RETRY_DELAY", Second, pd),
        GetDurationEnv(env, "CONSUMER_RETRY_BACKOFF_MAX", 30 * Second, pd),
        GetIntEnv(env, "CONSUMER_MAX_CONCURRENCY", 10), GetIntEnv(env, "CONSUMER_BUFFER_SIZE", 1000),
        GetDurationEnv(env, "CONSUMER_FLUSH_INTERVAL", 5 * Second, pd),
        GetDurationEnv(env, "CONSUMER_SHUTDOWN_TIMEOUT", 30 * Second, pd),
        GetDurationEnv(env, "CONSUMER_DRAIN_TIMEOUT", 10 * Second, pd)),
      MetricsConfig(
        GetBoolEnv(env, "METRICS_ENABLED", true), GetEnv(env, "METRICS_PORT", ":9090"),
        GetEnv(env, "METRICS_PATH", "/metrics"), GetEnv(env, "METRICS_NAMESPACE", "consumer"),
        GetEnv(env, "METRICS_SUBSYSTEM", "service")),
      LoggingConfig(
        GetEnv(env, "LOG_LEVEL", "info"), GetEnv(env, "LOG_FORMAT", "json"), GetEnv(env, "LOG_OUTPUT", "stdout"),
        GetEnv(env, "LOG_FILENAME", "consumer-service.log"), GetIntEnv(env, "LOG_MAX_SIZE", 100),
        GetIntEnv(env, "LOG_MAX_BACKUPS", 3), GetIntEnv(env, "LOG_MAX_AGE", 28), GetBoolEnv(env, "LOG_COMPRESS", true)),
      HealthConfig(
        GetBoolEnv(env, "HEALTH_ENABLED", true), GetDurationEnv(env, "HEALTH_CHECK_INTERVAL", 30 * Second, pd),
        GetDurationEnv(env, "HEALTH_TIMEOUT", 5 * Second, pd), GetIntEnv(env, "HEALTH_FAILURE_THRESHOLD", 3)))
  }

  /** Load: the built configuration if it validates, otherwise the wrapped validation error. */
  method Load(env: Environment, pd: string -> Option<int>) returns (r: Result<Config, string>)
    ensures Validate(Build(env, pd)).None? ==> r == Ok(Build(env, pd))
    ensures Validate(Build(env, pd)).Some? ==> r == Err("config validation failed: " + Validate(Build(env, pd)).value)
    ensures r.Ok? ==>
      TagsHold(r.value) && r.value.consumer.workerCount <= r.value.consumer.maxConcurrency
      && r.value.kafka.minBytes <= r.value.kafka.maxBytes
  {
    var brokers := GetBrokersEnv(env, "KAFKA_BROKER_LIST", ["localhost:9092"]);
    var built := Build(env, pd);
    var config := built.(kafka := built.kafka.(brokers := brokers));
    assert config == built;
    var err := Validate(config);
    if err.Some? {
      return Err("config validation failed: " + err.value);
    }
    r := Ok(config);
  }

  /** With nothing set, Load succeeds with the documented defaults. */
  lemma DefaultsLoad(pd: string -> Option<int>)
    ensures Validate(Build(map[], pd)).None?
    ensures var c := Build(map[], pd);
      c.consumer.workerCount == 5 && c.consumer.maxConcurrency == 10
      && c.kafka.minBytes == 1 && c.kafka.maxBytes == 10485760 && c.kafka.brokers == ["localhost:9092"]
  {
  }

  /** Turning metrics or health checks off fails validation: a `required` bool must be true. */
  lemma DisabledMetricsRejected(env: Environment, pd: string -> Option<int>)
    requires "METRICS_ENABLED" in env && env["METRICS_ENABLED"] == "false"
    ensures Validate(Build(env, pd)) == Some("validation failed")
  {
  }

  predicate IsProduction(c: Config) {
    c.app.environment == "production"
  }

  predicate IsDevelopment(c: Config) {
    c.app.environment == "development"
  }

  lemma EnvironmentsExclusive(c: Config)
    ensures !(IsProduction(c) && IsDevelopment(c))
  {
  }

  /** GetKafkaBrokerString: the brokers joined with ",". */
  function KafkaBrokerString(c: Config): string {
    Join(c.kafka.brokers, ',')
  }

  /** The broker string of a loaded configuration reads back as the same broker list. */
  lemma BrokerStringRoundTrip(env: Environment, pd: string -> Option<int>)
    ensures var c := Build(env, pd); BrokerList(KafkaBrokerString(c)) == c.kafka.brokers
  {
    var c := Build(env, pd);
    if Getenv(env, "KAFKA_BROKER_LIST") == "" {
      var d := "localhost:9092";
      assert Trimmed(d) && Free(d, ',');
      BrokerListJoin([d]);
    } else {
      BrokerListStable(env["KAFKA_BROKER_LIST"]);
    }
  }
}
