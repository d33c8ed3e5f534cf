/**
 * The VCAP_SERVICES binding shapes (config.go:121-151), the outcome of the
 * token exchange (getToken, config.go:198-224), and the overwrite of the Kafka
 * section taken from the first binding (config.go:167-188).
 */
module ServiceBinding {
  import opened Wrappers
  import opened EnvMapping
  import opened ConfigTypes

  datatype Urls = Urls(caCert: string, certs: string, certCurrent: string, certNext: string, token: string)

  datatype Credentials = Credentials(username: string, password: string, clusterBrokers: string, urls: Urls)

  datatype KafkaBinding = KafkaBinding(credentials: Credentials, name: string)

  /** The decoded payload: the list of Kafka bindings. */
  datatype Vcap = Vcap(kafka: seq<KafkaBinding>)

  /** The fixed file the CA certificate is downloaded to (config.go:162). */
  const CertificateFile := "current.cer"

  /** The CA path the override installs (config.go:188). */
  const CaFilepath := "./current.cer"

  /**
   * What the HTTP side of getToken came to: building the request failed
   * (config.go:204-207), the round trip failed (212-215), reading the body
   * failed (218-221), or a body was received.
   */
  datatype HttpOutcome = RequestInvalid | TransportFailed | BodyReadFailed | Received(body: string)

  /**
   * getToken's return values (token string, whether an error was returned):
   * every error path returns the empty string, and the body is returned
   * exactly when no error is.
   */
  function GetToken(o: HttpOutcome): (r: (string, bool))
    ensures r.1 <==> !o.Received?
    ensures r.1 ==> r.0 == ""
    ensures !r.1 ==> r.0 == o.body
  {
    match o
    case RequestInvalid => ("", true)
    case TransportFailed => ("", true)
    case BodyReadFailed => ("", true)
    case Received(body) => (body, false)
  }

  /**
   * json.Unmarshal of a JSON document (the binding payload, a token
   * response), given the decoder's verdict on non-empty input: an empty
   * input is never valid JSON.
   */
  function Unmarshal<T>(decode: string -> Option<T>, text: string): (r: Option<T>)
    ensures text == "" ==> r.None?
    ensures text != "" ==> r == decode(text)
  {
    if text == "" then None else decode(text)
  }

  /**
   * The Kafka section after the override: brokers from the binding's cluster
   * string, SASL PLAIN with the binding's username and the exchanged token,
   * TLS with verification skipped and the downloaded CA file.
   */
  function Override(k: KafkaConfig, c: Credentials, accessToken: string): (r: KafkaConfig)
    ensures Join(r.brokers, ',') == c.clusterBrokers
    ensures |r.brokers| == Count(c.clusterBrokers, ',') + 1
    ensures forall i :: 0 <= i < |r.brokers| ==> ',' !in r.brokers[i]
    ensures r.sasl.enabled && r.sasl.mechanism == "PLAIN"
    ensures r.sasl.username == c.username && r.sasl.password == accessToken
    ensures r.tls.enabled && r.tls.insecureSkipTlsVerify && r.tls.caFilepath == "./current.cer"
    ensures r.rest == k.rest && r.sasl.rest == k.sasl.rest && r.tls.rest == k.tls.rest
  {
    k.(brokers := Split(c.clusterBrokers, ','),
       sasl := k.sasl.(enabled := true, mechanism := "PLAIN", username := c.username, password := accessToken),
       tls := k.tls.(enabled := true, insecureSkipTlsVerify := true, caFilepath := CaFilepath))
  }

  /**
   * The override in field terms: the broker list splits back to the cluster
   * string, the SASL and TLS fields take their fixed or bound values, and
   * every other Kafka field keeps its value.
   */
  lemma OverrideFields(k: KafkaConfig, c: Credentials, accessToken: string)
    ensures var r := Override(k, c, accessToken);
      && r.brokers == Split(c.clusterBrokers, ',')
      && |r.brokers| == Count(c.clusterBrokers, ',') + 1
      && Join(r.brokers, ',') == c.clusterBrokers
      && (',' !in c.clusterBrokers ==> r.brokers == [c.clusterBrokers])
      && r.sasl == SaslConfig(true, "PLAIN", c.username, accessToken, k.sasl.rest)
      && r.tls == TlsConfig(true, true, "./current.cer", k.tls.rest)
      && r.rest == k.rest
  {
  }
}
