/** The normalised event record every input line (or stack-trace run) becomes. */
module Events {
  import opened Wrappers
  import opened Json

  /** The `logsource` property: '' (a flushed stack trace or an unparseable client line),
      'client' or 'server'. */
  datatype Source = NoSource | ClientSource | ServerSource

  /** The four event types. */
  datatype Severity = Info | Error | Warning | Debug {
    function Name(): string {
      match this
      case Info => "INFO"
      case Error => "ERROR"
      case Warning => "WARNING"
      case Debug => "DEBUG"
    }
  }

  /** The `type` property: '' in a fresh record, one of the type names, or `null` (what the
      server mapping returns for a severity outside 0..7). */
  datatype TypeField = Unset | Typed(severity: Severity) | Null {
    /** The JavaScript value of the property, None standing for `null`. */
    function Value(): Option<string> {
      match this
      case Unset => Some("")
      case Typed(s) => Some(s.Name())
      case Null => None
    }
  }

  /** A normalised record. Client events copy arbitrary JSON values into `program`,
      `host`, `env` and `message`, so those hold JSON values; `data` is the `_data`
      property, None for `null`. */
  datatype Event = Event(
    logsource: Source,
    program: JsonValue,
    host: JsonValue,
    env: JsonValue,
    eventType: TypeField,
    timestamp: string,
    message: JsonValue,
    data: Option<JsonObject>)

  /** getNewInstance: every string property '' and `_data` null. */
  function NewInstance(): Event {
    Event(NoSource, JString(""), JString(""), JString(""), Unset, "", JString(""), None)
  }

  /** Distinct types have distinct, non-empty names, so comparing `type` strings
      compares types. */
  lemma NamesIdentifyTypes(s: Severity, t: Severity)
    ensures s.Name() != ""
    ensures s.Name() == t.Name() <==> s == t
  {
  }
}
