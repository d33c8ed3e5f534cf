# Configuration resolution of kminion, modelled in Dafny

This project models how the kminion exporter resolves its startup
configuration in `config.go`. The steps are:

1. Start from the sections' defaults.
2. Merge an optional YAML file. This decoding pass is strict.
3. Merge the process environment. It goes through a callback that turns
   variable names into configuration paths and comma-bearing values into
   lists. This decoding pass is lenient.
4. Validate the Kafka, Minion and Logger sections, in that order.
5. If `VCAP_SERVICES` is present, overwrite the Kafka connection settings
   from the first service binding. This step downloads a CA certificate and
   exchanges client credentials for an access token.

Files:

- `wrappers.dfy`: `Option` and `Result`.
- `env_mapping.dfy`: the environment callback: ASCII lower-casing,
  underscore replacement, `strings.Split` and `strings.Join`.
- `config_types.dfy`: the `Config` record and Go's zero value `Config{}`.
- `validation.dfy`: `Config.Validate` and its wrapped error messages.
- `service_binding.dfy`: the binding payload shapes, the return policy of
  `getToken`, and the Kafka override.
- `resolution.dfy`: the stage functions `YamlLayers`, `Decoded`,
  `Validated`, `Bind` and `Resolve`, and the method `NewConfig`. The
  method follows `newConfig` statement by statement and is proved to agree
  with `Resolve`.
- `resolution_properties.dfy`: lemmas about stage order, abort policy and
  the override.

The model has no direct access to the environment, the file system, the
network, the koanf and mapstructure libraries, `encoding/json`, or the
`kafka`/`minion`/`prometheus`/`logging` packages. Each is a field of the
`Resolution.Host` datatype, reduced to its outcome. Fields the model does
not interpret are kept as an opaque `Settings` map. This covers the extra
Kafka fields and the Minion, Exporter and Logger sections.

Two places where the code reads differently from what it seems to intend.
The model follows what the code does.

- A failed token exchange is only logged (config.go:175-177), which reads
  as if it were meant to be non-fatal. Yet `getToken` returns `""` on every
  error path (config.go:207, 214, 220), and `""` is not valid JSON, so the
  token parse at config.go:180-183 always aborts
  (`TokenExchangeFailureAborts`).
- The binding's URL record declares a `ca_cert` field (config.go:126), but
  the certificate is downloaded from `cert_current` (config.go:160,
  `CertificateFromCertCurrent`). The CA path the override installs is
  `./current.cer` (config.go:188); the file it downloads to is
  `current.cer` (config.go:162).

## Model

| member | source | states |
|---|---|---|
| EnvMapping.LowerChar | config.go:96 | ASCII upper-case letters map to their lower-case letter; every other character is unchanged |
| EnvMapping.ToLower | config.go:96 | lower-casing keeps the length and lower-cases each character in place |
| EnvMapping.ReplaceAll | config.go:96 | replacing every occurrence of one character keeps the length; exactly the occurrences change |
| EnvMapping.EnvKey | config.go:96 | the configuration path has the variable name's length, contains no `_` and no upper-case ASCII letter; each `_` became `.` and every other character was lower-cased |
| EnvMapping.EnvKeyExample | config.go:96 | `KAFKA_BROKERS` maps to `kafka.brokers` |
| EnvMapping.EnvKeyIdempotent | config.go:96 | mapping a path that is already mapped changes nothing |
| EnvMapping.Split | config.go:100 | splitting on `,` gives (number of commas + 1) pieces; none of them contains a comma, and joining them with `,` gives the original string back |
| EnvMapping.SplitWithoutSeparator | config.go:99-104 | a string without a comma splits into the single piece that is the string itself |
| EnvMapping.SplitAfterPiece | config.go:100 | splitting `p + "," + t` when `p` has no comma yields `p` followed by the pieces of `t` |
| EnvMapping.SplitJoin | config.go:100 | Split inverts Join on any non-empty list of comma-free pieces |
| EnvMapping.MapEnv | config.go:94-105 | the callback's key is EnvKey of the name; the value is a list exactly when it contains a comma, with (commas + 1) comma-free pieces; otherwise it is the unaltered scalar; either way it stands for the original text |
| EnvMapping.EnvEntries | config.go:94-105 | the callback is applied to every environment variable, in order |
| ConfigTypes.ZeroConfig | config.go:71 | `Config{}` has an empty version, no brokers, SASL and TLS disabled, an empty mechanism and credentials, and empty settings in every section |
| Validation.Validate | config.go:39-56 | nil exactly when the Kafka, Minion and Logger validators all pass; otherwise the error of the first failing section in that order, tagged with that section and carrying that validator's error |
| Validation.Message | config.go:42-52 | each wrapped message starts with `failed to validate ` and ends with the wrapped cause; `MessageInjective` shows it determines section and cause |
| Validation.MessageInjective | config.go:42-52 | the wrapped messages identify the section and the cause: equal messages mean an equal section and an equal cause |
| Validation.ValidateIgnoresExporter | config.go:39-56 | the Exporter section (and the version) never affect the validation result |
| ServiceBinding.GetToken | config.go:198-224 | getToken reports an error exactly when the HTTP side did not yield a body; on every error path the token string is empty |
| ServiceBinding.Unmarshal | config.go:156-180 | an empty document (the payload at line 156 or the token body at line 180) never parses; any other is left to the abstract decoder |
| ServiceBinding.Override | config.go:167-188 | brokers split back to the cluster string with (commas + 1) comma-free pieces; SASL enabled/PLAIN/binding username/access token; TLS enabled/insecure/`./current.cer`; the other Kafka fields are kept (field by field in `OverrideFields`) |
| ServiceBinding.OverrideFields | config.go:167-188 | the override sets brokers to the comma split of the cluster string (one element without a comma), SASL to enabled/PLAIN/binding username/access token, and TLS to enabled/insecure/`./current.cer`; the remaining Kafka fields are unchanged |
| Resolution.Defaults | config.go:32-37 | the sections take their packages' defaults on top of `Config{}`; the version stays empty |
| Resolution.YamlLayers | config.go:64-73 | no layer exactly when `CONFIG_FILEPATH` is unset or empty (`os.Getenv` returns `""` for both), at most one YAML layer, and `YamlParseFailed` exactly when a set file fails to load |
| Resolution.Decoded | config.go:58-113 | the decoding stages fail only with a YAML, strict-decode, env-load or decode error; a YAML failure is passed on |
| Resolution.Validated | config.go:115-118 | succeeds exactly when decoding succeeded and Validate returned nil, with the decoded config; otherwise the decoding error or the wrapped validation error |
| Resolution.Bind | config.go:154-193 | fails only with a binding-stage error, always for an empty payload; on success only the Kafka section differs from the validated config (its fields in `ResolveWithBinding`) |
| Resolution.Resolve | config.go:58-196 | a validation-stage failure is returned as is; success implies validation passed; without `VCAP_SERVICES` the result is the validated config, with it the override of that config |
| Resolution.NewConfig | config.go:58-196 | every early return hands back `Config{}` with an error; the outcome is the one `Resolve` specifies, stage by stage |
| ResolutionProperties.YamlSkippedWhenUnset | config.go:64-67 | with `CONFIG_FILEPATH` unset or empty, the YAML loader is never consulted and no YAML layer is loaded |
| ResolutionProperties.YamlFailureAborts | config.go:69-72 | a YAML file that fails to load aborts resolution |
| ResolutionProperties.StrictPassSeesNoEnvironment | config.go:75-113 | a strict-decoding failure does not depend on the environment, on loading it, or on the lenient pass; the strict decoder rejected the defaults with the YAML layers, which `YamlLayers` shows are YAML layers only |
| ResolutionProperties.ResolvedPassedValidation | config.go:115-118 | a successful resolution means the decoded config passed the Kafka, Minion and Logger validators |
| ResolutionProperties.OverrideNeverValidated | config.go:115-193 | validators that agree on the decoded config give the same resolution, whatever they would say of the overridden fields |
| ResolutionProperties.MalformedPayloadAborts | config.go:155-159 | a binding payload that does not parse aborts resolution |
| ResolutionProperties.EmptyPayloadAborts | config.go:153-159 | `VCAP_SERVICES` set but empty is not valid JSON and aborts resolution |
| ResolutionProperties.EmptyBindingListPanics | config.go:160 | a payload with no Kafka binding reaches the out-of-range `Kafka[0]` |
| ResolutionProperties.CertificateFromCertCurrent | config.go:160-165 | resolution aborts at the certificate stage exactly when the download of the first binding's `cert_current` URL into `current.cer` fails |
| ResolutionProperties.TokenExchangeFailureAborts | config.go:174-183 | a failed token exchange is only logged, but its empty token string fails to parse, so resolution aborts |
| ResolutionProperties.ResolveWithBinding | config.go:160-188 | after a successful override, the certificate was downloaded, the exchange returned a non-empty body that parsed, and the Kafka section holds the split brokers and SASL/TLS as set; all other Kafka fields, the version and the other sections keep their validated values |
| ResolutionProperties.OverrideEscapesValidation | config.go:115-188 | a concrete scenario resolves successfully to a config whose Kafka section the validator rejects, with brokers `["b1","b2"]` and password `tok123` |

## Left out

- Loading and merging in koanf, the YAML parser, and mapstructure decoding are library behaviour. This includes `ErrorUnused`, the duration hook and weak typing. They are the abstract `Host` fields `loadYaml`, `decodeStrict`, `loadEnv` and `decodeLenient`. The model fixes only which layers each pass is given.
- How koanf's environment provider walks `os.Environ` and nests the dotted keys is library code. The model hands the loader the callback applied to each variable, in order.
- `json.Unmarshal` of the binding payload and of the token body are the abstract `decodeVcap` and `decodeToken`. The one fact kept from `encoding/json` is that an empty document never parses, for both (`ServiceBinding.Unmarshal`).
- The HTTP request, transport and body-read steps of `getToken` are reduced to an `HttpOutcome`. The HTTP GET and file write of `DownloadCertificate` are reduced to a boolean. HTTP status codes are not inspected in the source either.
- `SetDefaults` and `Validate` of the kafka, minion, prometheus and logging packages are not part of this model. They are the abstract per-section defaults (`kafkaDefaults` and so on) and `validators`.
- Logging is left out. This covers the messages at config.go:67 and 176, and the `json.Marshal` dump of the Kafka section at config.go:190-191.
- The wrapped error texts of `newConfig` are not modelled; `ConfigError` records only the stage that aborted. Lines 164 and 182 wrap `err` instead of `err1`/`err2`, which changes the message and drops the real cause from the error chain; the error is still non-nil and the stage that aborts is the same. The validation error keeps its section and cause.
- EnvMapping.ToLower: restricted to ASCII. Non-ASCII characters are left unchanged rather than Unicode-lowered. Strings are sequences of characters, not Go's UTF-8 bytes, so "length unchanged" is a statement about characters.
- Resolution.NewConfig: the Go panic on `Kafka[0]` of an empty binding list (config.go:160) becomes the error `BindingIndexPanic` with `Config{}`. It is not a process crash.
