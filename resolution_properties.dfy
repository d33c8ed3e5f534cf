/** What newConfig's stage order and error policy guarantee (config.go:58-196). */
module ResolutionProperties {
  import opened Wrappers
  import opened EnvMapping
  import opened ConfigTypes
  import opened Validation
  import opened ServiceBinding
  import opened Resolution

  /** Without CONFIG_FILEPATH the YAML loader is never consulted (config.go:66-67). */
  lemma YamlSkippedWhenUnset(h: Host, load: string -> Option<Settings>)
    requires h.configFilepath == ""
    ensures Resolve(h.(loadYaml := load)) == Resolve(h)
    ensures YamlLayers(h) == Ok([])
  {
  }

  /** A YAML file that fails to load aborts resolution (config.go:69-72). */
  lemma YamlFailureAborts(h: Host)
    requires h.configFilepath != "" && h.loadYaml(h.configFilepath).None?
    ensures Resolve(h) == Err(YamlParseFailed)
  {
  }

  /**
   * The strict decoding pass sees at most the YAML layer, never the
   * environment (config.go:75-92): whether it fails does not depend on the
   * environment, on loading it, or on the lenient pass (config.go:94-113).
   */
  lemma StrictPassSeesNoEnvironment(h: Host, environ: seq<(string, string)>,
                                    loadEnv: seq<(string, EnvValue)> -> bool,
                                    decodeLenient: (Config, seq<Layer>) -> Option<Config>)
    requires Decoded(h) == Err(StrictDecodeFailed)
    ensures Decoded(h.(environ := environ, loadEnv := loadEnv, decodeLenient := decodeLenient)) == Err(StrictDecodeFailed)
    ensures YamlLayers(h).Ok? && h.decodeStrict(Defaults(h), YamlLayers(h).value).None?
  {
    var h' := h.(environ := environ, loadEnv := loadEnv, decodeLenient := decodeLenient);
    assert YamlLayers(h') == YamlLayers(h);
    assert Defaults(h') == Defaults(h);
  }

  /**
   * A successful resolution passed validation: the decoded config satisfied
   * the Kafka, Minion and Logger validators before any override (config.go:115-118).
   */
  lemma ResolvedPassedValidation(h: Host)
    requires Resolve(h).Ok?
    ensures Decoded(h).Ok? && Validated(h) == Decoded(h)
    ensures var c := Decoded(h).value;
      && h.validators.kafka(c.kafka).None?
      && h.validators.minion(c.minion).None?
      && h.validators.logger(c.logger).None?
  {
  }

  /**
   * The override runs after validation, so the validators are asked only
   * about the decoded config: validators that agree on it give the same
   * result, whatever they would say about the overridden fields (config.go:115-193).
   */
  lemma OverrideNeverValidated(h: Host, v: Validators)
    requires Decoded(h).Ok?
    requires Validate(Decoded(h).value, v) == Validate(Decoded(h).value, h.validators)
    ensures Resolve(h.(validators := v)) == Resolve(h)
  {
  }

  /** A binding payload that does not parse aborts resolution (config.go:155-159). */
  lemma MalformedPayloadAborts(h: Host)
    requires Validated(h).Ok? && h.vcapServices.Some?
    requires Unmarshal(h.decodeVcap, h.vcapServices.value).None?
    ensures Resolve(h) == Err(VcapReadFailed)
  {
  }

  /** VCAP_SERVICES set but empty is not valid JSON and aborts resolution (config.go:153-159). */
  lemma EmptyPayloadAborts(h: Host)
    requires Validated(h).Ok? && h.vcapServices == Some("")
    ensures Resolve(h) == Err(VcapReadFailed)
  {
  }

  /** A payload with no Kafka binding reaches the out-of-range Kafka[0] (config.go:160). */
  lemma EmptyBindingListPanics(h: Host)
    requires Validated(h).Ok? && h.vcapServices.Some?
    requires Unmarshal(h.decodeVcap, h.vcapServices.value).Some?
    requires |Unmarshal(h.decodeVcap, h.vcapServices.value).value.kafka| == 0
    ensures Resolve(h) == Err(BindingIndexPanic)
  {
  }

  /**
   * The certificate is fetched from the first binding's cert_current URL
   * into current.cer, and resolution aborts exactly when that download
   * fails (config.go:160-165).
   */
  lemma CertificateFromCertCurrent(h: Host)
    requires Validated(h).Ok? && h.vcapServices.Some?
    requires Unmarshal(h.decodeVcap, h.vcapServices.value).Some?
    requires |Unmarshal(h.decodeVcap, h.vcapServices.value).value.kafka| > 0
    ensures var c := Unmarshal(h.decodeVcap, h.vcapServices.value).value.kafka[0].credentials;
      Resolve(h) == Err(CertDownloadFailed) <==> !h.downloadCertificate(c.urls.certCurrent, "current.cer")
  {
  }

  /**
   * A failed token exchange is only logged, but getToken's empty string does
   * not parse as JSON, so resolution still aborts (config.go:174-183, 198-224).
   */
  lemma TokenExchangeFailureAborts(h: Host)
    requires Validated(h).Ok? && h.vcapServices.Some?
    requires Unmarshal(h.decodeVcap, h.vcapServices.value).Some?
    requires |Unmarshal(h.decodeVcap, h.vcapServices.value).value.kafka| > 0
    requires var c := Unmarshal(h.decodeVcap, h.vcapServices.value).value.kafka[0].credentials;
      && h.downloadCertificate(c.urls.certCurrent, "current.cer")
      && !h.exchangeToken(c.urls.token, c.username, c.password).Received?
    ensures Resolve(h) == Err(TokenFetchFailed)
  {
  }

  /**
   * After a successful override the Kafka section holds the first binding's
   * brokers and username, SASL PLAIN with the parsed access token and TLS
   * with the downloaded CA file; every other field and section keeps its
   * validated value (config.go:160-188).
   */
  lemma ResolveWithBinding(h: Host)
    requires h.vcapServices.Some? && Resolve(h).Ok?
    ensures Validated(h).Ok?
    ensures var vcap := Unmarshal(h.decodeVcap, h.vcapServices.value);
      vcap.Some? && |vcap.value.kafka| > 0 &&
      var c := vcap.value.kafka[0].credentials;
      var exchange := h.exchangeToken(c.urls.token, c.username, c.password);
      var before, after := Validated(h).value, Resolve(h).value;
      && h.downloadCertificate(c.urls.certCurrent, "current.cer")
      && exchange.Received? && exchange.body != ""
      && h.decodeToken(exchange.body).Some?
      && after.kafka.brokers == Split(c.clusterBrokers, ',')
      && |after.kafka.brokers| == Count(c.clusterBrokers, ',') + 1
      && Join(after.kafka.brokers, ',') == c.clusterBrokers
      && (',' !in c.clusterBrokers ==> after.kafka.brokers == [c.clusterBrokers])
      && after.kafka.sasl == SaslConfig(true, "PLAIN", c.username, h.decodeToken(exchange.body).value, before.kafka.sasl.rest)
      && after.kafka.tls == TlsConfig(true, true, "./current.cer", before.kafka.tls.rest)
      && after.kafka.rest == before.kafka.rest
      && after.version == before.version
      && after.minion == before.minion
      && after.exporter == before.exporter
      && after.logger == before.logger
  {
  }

  /**
   * A scenario with one binding whose token endpoint answers
   * {"access_token":"tok123"}, and a Kafka validator that would reject the
   * PLAIN mechanism the override installs.
   */
  const SamplePayload := "{\"kafka\":[{\"name\":\"kafka\",\"credentials\":{\"Username\":\"user\",\"Password\":\"secret\",\"Cluster\":{\"Brokers\":\"b1,b2\"},\"Urls\":{\"ca_cert\":\"ca\",\"cert_current\":\"current\",\"token\":\"token\"}}}]}"

  function SampleHost(): Host
  {
    Host(
      kafkaDefaults := ZeroConfig().kafka,
      minionDefaults := ZeroConfig().minion,
      exporterDefaults := ZeroConfig().exporter,
      loggerDefaults := ZeroConfig().logger,
      configFilepath := "",
      loadYaml := _ => None,
      decodeStrict := (c, _) => Some(c),
      environ := [],
      loadEnv := _ => true,
      decodeLenient := (c, _) => Some(c),
      validators := Validators(
        kafka := (k: KafkaConfig) => if k.sasl.mechanism == "PLAIN" then Some("mechanism not allowed") else None,
        minion := _ => None,
        logger := _ => None),
      vcapServices := Some(SamplePayload),
      decodeVcap := _ => Some(Vcap([KafkaBinding(
        Credentials(
          username := "user",
          password := "secret",
          clusterBrokers := "b1,b2",
          urls := Urls(caCert := "ca", certs := "", certCurrent := "current", certNext := "", token := "token")),
        name := "kafka")])),
      downloadCertificate := (_, _) => true,
      exchangeToken := (_, _, _) => Received("{\"access_token\":\"tok123\"}"),
      decodeToken := _ => Some("tok123"))
  }

  /**
   * The override escapes validation: the scenario resolves successfully to
   * a config the Kafka validator rejects, with the split brokers and the
   * exchanged token in place (config.go:115-188).
   */
  lemma OverrideEscapesValidation()
    ensures var h := SampleHost();
      && Resolve(h).Ok?
      && Validate(Resolve(h).value, h.validators) == Some(ValidationError(KafkaSection, "mechanism not allowed"))
      && Resolve(h).value.kafka.brokers == ["b1", "b2"]
      && Resolve(h).value.kafka.sasl.password == "tok123"
  {
    var h := SampleHost();
    var c := Unmarshal(h.decodeVcap, SamplePayload).value.kafka[0].credentials;
    assert Decoded(h) == Ok(ZeroConfig());
    assert Validated(h) == Ok(ZeroConfig());
    SplitAfterPiece("b1", ',', "b2");
    SplitWithoutSeparator("b2", ',');
    assert c.clusterBrokers == "b1" + [','] + "b2";
  }
}
