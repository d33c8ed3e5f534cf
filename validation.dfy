/**
 * Config.Validate (config.go:39-56): the Kafka, Minion and Logger sections are
 * checked in that order and the first failure is returned, wrapped with a
 * message naming its section. The per-section validators live in packages
 * outside this model and are parameters here.
 */
module Validation {
  import opened Wrappers
  import opened ConfigTypes

  datatype Section = KafkaSection | MinionSection | LoggerSection

  /** A wrapped validation error: the failing section and the error it reported. */
  datatype ValidationError = ValidationError(section: Section, cause: string)

  /** The per-section Validate methods; None stands for a nil error. */
  datatype Validators = Validators(
    kafka: KafkaConfig -> Option<string>,
    minion: MinionConfig -> Option<string>,
    logger: LoggerConfig -> Option<string>)

  function SectionName(s: Section): string
  {
    match s
    case KafkaSection => "kafka"
    case MinionSection => "minion"
    case LoggerSection => "logger"
  }

  /** The text of a wrapped error, as fmt.Errorf formats it (config.go:42, 47, 52). */
  function Message(e: ValidationError): (m: string)
    ensures |m| >= |e.cause| && m[|m| - |e.cause|..] == e.cause
    ensures |m| >= 19 && m[..19] == "failed to validate "
  {
    "failed to validate " + SectionName(e.section) + " config: " + e.cause
  }

  /** Two wrapped messages are equal only for the same section and the same cause. */
  lemma MessageInjective(e1: ValidationError, e2: ValidationError)
    requires Message(e1) == Message(e2)
    ensures e1 == e2
  {
    var lead := "failed to validate ";
    assert Message(e1)[|lead|] == SectionName(e1.section)[0];
    assert Message(e2)[|lead|] == SectionName(e2.section)[0];
    assert e1.section == e2.section;
    var prefix := lead + SectionName(e1.section) + " config: ";
    assert Message(e1) == prefix + e1.cause && Message(e2) == prefix + e2.cause;
    assert e1.cause == Message(e1)[|prefix|..];
    assert e2.cause == Message(e2)[|prefix|..];
  }

  /**
   * Short-circuit validation: nil exactly when all three sections pass;
   * otherwise the error of the first failing section in the order Kafka,
   * Minion, Logger.
   */
  function Validate(c: Config, v: Validators): (r: Option<ValidationError>)
    ensures r.None? <==> v.kafka(c.kafka).None? && v.minion(c.minion).None? && v.logger(c.logger).None?
    ensures v.kafka(c.kafka).Some? ==> r == Some(ValidationError(KafkaSection, v.kafka(c.kafka).value))
    ensures v.kafka(c.kafka).None? && v.minion(c.minion).Some? ==>
      r == Some(ValidationError(MinionSection, v.minion(c.minion).value))
    ensures v.kafka(c.kafka).None? && v.minion(c.minion).None? && v.logger(c.logger).Some? ==>
      r == Some(ValidationError(LoggerSection, v.logger(c.logger).value))
  {
    match v.kafka(c.kafka)
    case Some(err) => Some(ValidationError(KafkaSection, err))
    case None =>
      match v.minion(c.minion)
      case Some(err) => Some(ValidationError(MinionSection, err))
      case None =>
        match v.logger(c.logger)
        case Some(err) => Some(ValidationError(LoggerSection, err))
        case None => None
  }

  /** The Exporter section is never consulted, and neither is the version. */
  lemma ValidateIgnoresExporter(c: Config, v: Validators, exporter: ExporterConfig, version: string)
    ensures Validate(c.(exporter := exporter, version := version), v) == Validate(c, v)
  {
  }
}
