/**
 * newConfig (config.go:58-196): defaults, the optional YAML file decoded
 * strictly, the environment decoded leniently, validation, and then the
 * optional service-binding override. Everything the function learns from
 * outside (environment, files, network, the koanf and mapstructure
 * libraries, the packages' own defaults and validators) is a field of Host.
 */
module Resolution {
  import opened Wrappers
  import opened EnvMapping
  import opened ConfigTypes
  import opened Validation
  import opened ServiceBinding

  /** A source loaded into the koanf instance, in load order. */
  datatype Layer = YamlLayer(tree: Settings) | EnvLayer(entries: seq<(string, EnvValue)>)

  /** The stage at which newConfig gave up. */
  datatype ConfigError =
    | YamlParseFailed                       // config.go:69-72
    | StrictDecodeFailed                    // config.go:78-92
    | EnvLoadFailed                         // config.go:94-108
    | DecodeFailed                          // config.go:110-113
    | ValidationFailed(cause: ValidationError)  // config.go:115-118
    | VcapReadFailed                        // config.go:156-159
    | BindingIndexPanic                     // config.go:160, Kafka[0] of an empty list
    | CertDownloadFailed                    // config.go:162-165
    | TokenFetchFailed                      // config.go:179-183

  /** The collaborators of newConfig, each reduced to its outcome. */
  datatype Host = Host(
    kafkaDefaults: KafkaConfig,                           // c.Kafka.SetDefaults()
    minionDefaults: MinionConfig,                         // c.Minion.SetDefaults()
    exporterDefaults: ExporterConfig,                     // c.Exporter.SetDefaults()
    loggerDefaults: LoggerConfig,                         // c.Logger.SetDefaults()
    configFilepath: string,                               // os.Getenv("CONFIG_FILEPATH")
    loadYaml: string -> Option<Settings>,                 // k.Load(file.Provider(path), yaml.Parser())
    decodeStrict: (Config, seq<Layer>) -> Option<Config>, // k.UnmarshalWithConf with ErrorUnused
    environ: seq<(string, string)>,                       // the process environment
    loadEnv: seq<(string, EnvValue)> -> bool,             // k.Load(env.ProviderWithValue(...))
    decodeLenient: (Config, seq<Layer>) -> Option<Config>,// k.Unmarshal("", &cfg)
    validators: Validators,                               // the sections' Validate methods
    vcapServices: Option<string>,                         // os.LookupEnv("VCAP_SERVICES")
    decodeVcap: string -> Option<Vcap>,                   // json.Unmarshal of a non-empty payload
    downloadCertificate: (string, string) -> bool,        // DownloadCertificate(url, file) == nil
    exchangeToken: (string, string, string) -> HttpOutcome, // the HTTP side of getToken
    decodeToken: string -> Option<string>)                // json.Unmarshal of a non-empty token body

  /**
   * `var cfg Config; cfg.SetDefaults()` (config.go:32-37, 60-61): each section
   * takes its package's defaults on top of the zero value, and the version
   * stays empty.
   */
  function Defaults(h: Host): (cfg: Config)
    ensures cfg.version == ZeroConfig().version
    ensures cfg.kafka == h.kafkaDefaults && cfg.minion == h.minionDefaults
    ensures cfg.exporter == h.exporterDefaults && cfg.logger == h.loggerDefaults
  {
    ZeroConfig().(kafka := h.kafkaDefaults, minion := h.minionDefaults,
                  exporter := h.exporterDefaults, logger := h.loggerDefaults)
  }

  /**
   * The koanf layers after the optional YAML stage (config.go:64-73): no
   * layer when CONFIG_FILEPATH is unset or empty, one YAML layer when the file
   * loads, and an abort when it does not.
   */
  function YamlLayers(h: Host): (r: Result<seq<Layer>, ConfigError>)
    ensures r.Err? <==> h.configFilepath != "" && h.loadYaml(h.configFilepath).None?
    ensures r.Err? ==> r.error == YamlParseFailed
    ensures r.Ok? ==> (r.value == [] <==> h.configFilepath == "")
    ensures r.Ok? ==> |r.value| <= 1 && forall i :: 0 <= i < |r.value| ==> r.value[i].YamlLayer?
  {
    if h.configFilepath == "" then Ok([])
    else
      match h.loadYaml(h.configFilepath)
      case None => Err(YamlParseFailed)
      case Some(tree) => Ok([YamlLayer(tree)])
  }

  /**
   * The config after both decoding passes, before validation
   * (config.go:58-113): it fails only with a loading or decoding error.
   */
  function Decoded(h: Host): (r: Result<Config, ConfigError>)
    ensures r.Err? ==> r.error in {YamlParseFailed, StrictDecodeFailed, EnvLoadFailed, DecodeFailed}
    ensures YamlLayers(h).Err? ==> r == Err(YamlParseFailed)
  {
    match YamlLayers(h)
    case Err(e) => Err(e)
    case Ok(layers) =>
      match h.decodeStrict(Defaults(h), layers)
      case None => Err(StrictDecodeFailed)
      case Some(cfg) =>
        var entries := EnvEntries(h.environ);
        if !h.loadEnv(entries) then Err(EnvLoadFailed)
        else
          match h.decodeLenient(cfg, layers + [EnvLayer(entries)])
          case None => Err(DecodeFailed)
          case Some(cfg') => Ok(cfg')
  }

  /**
   * The config that passed validation (config.go:58-118): the decoded config
   * when Validate returns nil, otherwise the decoding error or the wrapped
   * validation error.
   */
  function Validated(h: Host): (r: Result<Config, ConfigError>)
    ensures r.Ok? <==> Decoded(h).Ok? && Validate(Decoded(h).value, h.validators).None?
    ensures r.Ok? ==> r == Decoded(h)
    ensures Decoded(h).Err? ==> r == Decoded(h)
    ensures Decoded(h).Ok? && r.Err? ==> r == Err(ValidationFailed(Validate(Decoded(h).value, h.validators).value))
  {
    match Decoded(h)
    case Err(e) => Err(e)
    case Ok(cfg) =>
      match Validate(cfg, h.validators)
      case Some(f) => Err(ValidationFailed(f))
      case None => Ok(cfg)
  }

  /**
   * The service-binding override applied to a validated config
   * (config.go:154-193): it fails only with a binding-stage error, and on
   * success only the Kafka section changes.
   */
  function Bind(h: Host, cfg: Config, payload: string): (r: Result<Config, ConfigError>)
    ensures r.Err? ==> r.error in {VcapReadFailed, BindingIndexPanic, CertDownloadFailed, TokenFetchFailed}
    ensures payload == "" ==> r == Err(VcapReadFailed)
    ensures r.Ok? ==> r.value == cfg.(kafka := r.value.kafka)
  {
    match Unmarshal(h.decodeVcap, payload)
    case None => Err(VcapReadFailed)
    case Some(vcap) =>
      if |vcap.kafka| == 0 then Err(BindingIndexPanic)
      else
        var c := vcap.kafka[0].credentials;
        if !h.downloadCertificate(c.urls.certCurrent, CertificateFile) then Err(CertDownloadFailed)
        else
          var token := GetToken(h.exchangeToken(c.urls.token, c.username, c.password));
          match Unmarshal(h.decodeToken, token.0)
          case None => Err(TokenFetchFailed)
          case Some(accessToken) => Ok(cfg.(kafka := Override(cfg.kafka, c, accessToken)))
  }

  /**
   * newConfig as a whole, stage by stage: the override runs only on a
   * validated config, and without VCAP_SERVICES that config is the result.
   */
  function Resolve(h: Host): (r: Result<Config, ConfigError>)
    ensures Validated(h).Err? ==> r == Validated(h)
    ensures r.Ok? ==> Validated(h).Ok?
    ensures h.vcapServices.None? ==> r == Validated(h)
    ensures h.vcapServices.Some? && Validated(h).Ok? ==> r == Bind(h, Validated(h).value, h.vcapServices.value)
  {
    match Validated(h)
    case Err(e) => Err(e)
    case Ok(cfg) =>
      match h.vcapServices
      case None => Ok(cfg)
      case Some(payload) => Bind(h, cfg, payload)
  }

  /**
   * newConfig, step by step: every early return hands back the zero Config
   * with an error, and the outcome is the one Resolve describes.
   */
  method NewConfig(h: Host) returns (cfg: Config, err: Option<ConfigError>)
    ensures err.Some? ==> cfg == ZeroConfig()
    ensures Resolve(h) == if err.None? then Ok(cfg) else Err(err.value)
  {
    var layers: seq<Layer> := [];
    cfg := Defaults(h);

    if h.configFilepath != "" {
      var tree := h.loadYaml(h.configFilepath);
      if tree.None? {
        return ZeroConfig(), Some(YamlParseFailed);
      }
      layers := layers + [YamlLayer(tree.value)];
      assert layers == [YamlLayer(tree.value)];
    }

    assert YamlLayers(h) == Ok(layers);

    var decoded := h.decodeStrict(cfg, layers);
    if decoded.None? {
      return ZeroConfig(), Some(StrictDecodeFailed);
    }
    cfg := decoded.value;

    var entries := EnvEntries(h.environ);
    if !h.loadEnv(entries) {
      return ZeroConfig(), Some(EnvLoadFailed);
    }
    layers := layers + [EnvLayer(entries)];

    decoded := h.decodeLenient(cfg, layers);
    if decoded.None? {
      return ZeroConfig(), Some(DecodeFailed);
    }
    cfg := decoded.value;
    assert Decoded(h) == Ok(cfg);

    var failure := Validate(cfg, h.validators);
    if failure.Some? {
      return ZeroConfig(), Some(ValidationFailed(failure.value));
    }

    assert Validated(h) == Ok(cfg);
    ghost var validated := cfg;

    if h.vcapServices.Some? {
      var vcap := Unmarshal(h.decodeVcap, h.vcapServices.value);
      if vcap.None? {
        return ZeroConfig(), Some(VcapReadFailed);
      }
      if |vcap.value.kafka| == 0 {
        return ZeroConfig(), Some(BindingIndexPanic);
      }
      var creds := vcap.value.kafka[0].credentials;
      var caUrl := creds.urls.certCurrent;
      var tokenUrl := creds.urls.token;
      if !h.downloadCertificate(caUrl, CertificateFile) {
        return ZeroConfig(), Some(CertDownloadFailed);
      }

      cfg := cfg.(kafka := cfg.kafka.(brokers := Split(creds.clusterBrokers, ',')));
      cfg := cfg.(kafka := cfg.kafka.(sasl := cfg.kafka.sasl.(enabled := true)));
      cfg := cfg.(kafka := cfg.kafka.(sasl := cfg.kafka.sasl.(mechanism := "PLAIN")));
      cfg := cfg.(kafka := cfg.kafka.(sasl := cfg.kafka.sasl.(username := creds.username)));

      // A failed exchange is only logged; its empty token string fails to parse below.
      var token := GetToken(h.exchangeToken(tokenUrl, creds.username, creds.password));
      var accessToken := Unmarshal(h.decodeToken, token.0);
      if accessToken.None? {
        return ZeroConfig(), Some(TokenFetchFailed);
      }
      cfg := cfg.(kafka := cfg.kafka.(sasl := cfg.kafka.sasl.(password := accessToken.value)));

      cfg := cfg.(kafka := cfg.kafka.(tls := cfg.kafka.tls.(enabled := true)));
      cfg := cfg.(kafka := cfg.kafka.(tls := cfg.kafka.tls.(insecureSkipTlsVerify := true)));
      cfg := cfg.(kafka := cfg.kafka.(tls := cfg.kafka.tls.(caFilepath := CaFilepath)));
      assert cfg == validated.(kafka := Override(validated.kafka, creds, accessToken.value));
    }

    return cfg, None;
  }
}
