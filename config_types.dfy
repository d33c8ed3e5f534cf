/**
 * The configuration record resolved at startup (config.go:23-30). The Kafka
 * section keeps the fields the service-binding override writes; everything a
 * section holds beyond them belongs to packages outside this model and is
 * kept as an uninterpreted settings map.
 */
module ConfigTypes {

  /** Settings of a package this model does not interpret, keyed by field path. */
  datatype Settings = Settings(values: map<string, string>)

  /** The zero value of an uninterpreted group of settings. */
  const NoSettings := Settings(map[])

  datatype SaslConfig = SaslConfig(
    enabled: bool,
    mechanism: string,
    username: string,
    password: string,
    rest: Settings)

  datatype TlsConfig = TlsConfig(
    enabled: bool,
    insecureSkipTlsVerify: bool,
    caFilepath: string,
    rest: Settings)

  datatype KafkaConfig = KafkaConfig(
    brokers: seq<string>,
    sasl: SaslConfig,
    tls: TlsConfig,
    rest: Settings)

  datatype MinionConfig = MinionConfig(settings: Settings)
  datatype ExporterConfig = ExporterConfig(settings: Settings)
  datatype LoggerConfig = LoggerConfig(settings: Settings)

  datatype Config = Config(
    version: string,
    kafka: KafkaConfig,
    minion: MinionConfig,
    exporter: ExporterConfig,
    logger: LoggerConfig)

  /** Go's zero value `Config{}`: empty strings, false flags, no brokers. */
  function ZeroConfig(): (c: Config)
    ensures c.version == "" && c.kafka.brokers == []
    ensures !c.kafka.sasl.enabled && !c.kafka.tls.enabled && !c.kafka.tls.insecureSkipTlsVerify
    ensures c.kafka.sasl.mechanism == "" && c.kafka.sasl.username == "" && c.kafka.sasl.password == ""
    ensures c.kafka.tls.caFilepath == ""
    ensures c.kafka.rest == c.kafka.sasl.rest == c.kafka.tls.rest == NoSettings
    ensures c.minion.settings == c.exporter.settings == c.logger.settings == NoSettings
  {
    Config(
      "",
      KafkaConfig([], SaslConfig(false, "", "", "", NoSettings), TlsConfig(false, false, "", NoSettings), NoSettings),
      MinionConfig(NoSettings),
      ExporterConfig(NoSettings),
      LoggerConfig(NoSettings))
  }
}
