/** Vocabulary shared by every entity of the monitor: identifiers, timestamps,
    severities, the error taxonomy, and Option/Result in place of Java's null
    and exceptions. */
module Common {

  /** An entity identifier (a UUID string in the system). */
  type Id = string

  /** A timestamp (LocalDateTime); it is only stored and copied, never computed on. */
  type Time = int

  /** A nullable reference. */
  datatype Option<T> = None | Some(value: T)

  /** Either a constructed value or the exception the constructor throws. */
  datatype Result<T> = Ok(value: T) | Err(error: Error)

  /** The outcome of a void operation that may throw. */
  datatype Outcome = Pass | Fail(error: Error)

  /** Alert severities, as the threshold prompt lists them. */
  datatype Severity = Low | Medium | High | Critical

  /** One constructor per exception message of the core. */
  datatype Error =
    // validation errors
    | DeviceIdRequired
    | SensorTypeRequired
    | MinAboveMax
    | SensorIdRequired
    | TimestampRequired
    | DeviceNameRequired
    | SensorNull
    | TechnicianNameRequired
    | AlertRequired
    | ActionRequired
    // invalid-transition error
    | OnlyNewAlertsCanBeAcknowledged
    // precondition error
    | ActionNeededToClose

  /** A missing severity is read as MEDIUM. */
  function SeverityOrMedium(s: Option<Severity>): (r: Severity)
    ensures s.None? ==> r == Medium
    ensures s.Some? ==> r == s.value
  {
    if s.None? then Medium else s.value
  }
}
