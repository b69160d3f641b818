// The sample application's configuration: a handful of settings read from the environment with
// defaults, and no validation.
module SampleConfig {
  import opened Wrappers
  import opened Env

  datatype ServerConfig = ServerConfig(address: string, readTimeout: int, writeTimeout: int, idleTimeout: int)

  datatype KafkaConfig = KafkaConfig(brokers: seq<string>, topic: string)

  datatype Config = Config(server: ServerConfig, kafka: KafkaConfig)

  /** Load; `pd` is time.ParseDuration. The broker variable is taken whole, as one broker. */
  function Load(env: Environment, pd: string -> Option<int>): (c: Config)
    ensures |c.kafka.brokers| == 1
    ensures c.kafka.brokers[0] == (if Getenv(env, "KAFKA_BROKER_LIST") == "" then "localhost:9092" else env["KAFKA_BROKER_LIST"])
    ensures c.kafka.topic != "" && c.server.address != ""
  {
    Config(
      ServerConfig(
        GetEnv(env, "SERVER_ADDRESS", ":8080"), GetDurationEnv(env, "SERVER_READ_TIMEOUT", 15 * Second, pd),
        GetDurationEnv(env, "SERVER_WRITE_TIMEOUT", 15 * Second, pd),
        GetDurationEnv(env, "SERVER_IDLE_TIMEOUT", 60 * Second, pd)),
      KafkaConfig([GetEnv(env, "KAFKA_BROKER_LIST", "localhost:9092")], GetEnv(env, "KAFKA_TOPIC", "events")))
  }

  /** With nothing set: address ":8080", timeouts 15s, 15s and 60s, one local broker, topic "events". */
  lemma Defaults(pd: string -> Option<int>)
    ensures Load(map[], pd) == Config(ServerConfig(":8080", 15 * Second, 15 * Second, 60 * Second), KafkaConfig(["localhost:9092"], "events"))
  {
  }

  /** A comma-separated broker list is not split: it stays one broker, commas included. */
  lemma BrokersNotSplit(env: Environment, pd: string -> Option<int>)
    requires "KAFKA_BROKER_LIST" in env && env["KAFKA_BROKER_LIST"] == "a:9092,b:9092"
    ensures Load(env, pd).kafka.brokers == ["a:9092,b:9092"]
  {
  }
}
