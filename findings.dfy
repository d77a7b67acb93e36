/** The values that flow from the probe to the summary: nagiosplugin metrics
    ("findings"), their hints, the evaluated results and the faults that stop a run. */
module Findings {
  import opened Wrappers

  /** A Python dictionary key used for a disk: a serial number (`str`), a device
      path (`pathlib.Path`) or `None`. A string and a path with the same text are
      different keys. */
  datatype Key = Str(s: string) | Path(p: string) | Null

  /** How a key prints inside an f-string. */
  function KeyText(k: Key): string
  {
    match k
    case Str(s) => s
    case Path(p) => p
    case Null => "None"
  }

  /** The serial as a key: `None` when the telemetry has no serial number. */
  function SerialKey(serial: Option<string>): Key
  {
    match serial
    case Some(s) => Str(s)
    case None => Null
  }

  /** A device path as a key: `None` when the telemetry came from stdin. */
  function DeviceKey(device: Option<string>): Key
  {
    match device
    case Some(p) => Path(p)
    case None => Null
  }

  /** `serial or device`: an absent or empty serial falls back to the device. */
  function Subject(serial: Option<string>, device: Option<string>): (k: Key)
    ensures serial.Some? && serial.value != "" ==> k == Str(serial.value)
    ensures (serial.None? || serial.value == "") ==> k == DeviceKey(device)
  {
    if serial.Some? && serial.value != "" then Str(serial.value) else DeviceKey(device)
  }

  /** nagiosplugin service states, ordered by their exit codes. */
  datatype Severity = Ok | Warn | Critical | Unknown {
    function Code(): nat {
      match this
      case Ok => 0
      case Warn => 1
      case Critical => 2
      case Unknown => 3
    }
  }

  /** The payload of a metadata metric, or the bare text a CheckError leaves as
      the hint of its result. `NoHint` is the hint of a raw-value result. */
  datatype Hint =
    | Increment(serial: Key, metric: string, oldValue: int, newValue: int)
    | Status(subject: Key, message: string)
    | Message(text: string)
    | Text(text: string)
    | NoHint

  /** A nagiosplugin.Metric as the probe yields it: a "metadata" metric named
      "warning" or "critical" carrying a hint, or a "smart_attributes" metric
      named `{serial}_{metric}` carrying the raw value. */
  datatype Finding =
    | Metadata(level: string, hint: Hint)
    | Raw(name: string, value: int)

  /** A CheckError (reported by nagiosplugin as an Unknown result) or the
      IndexError raised by `values[0]` on an empty window (an uncaught crash). */
  datatype Fault = CheckError(message: string) | IndexError

  /** A nagiosplugin.Result: a state and the hint it was evaluated with. */
  datatype CheckResult = CheckResult(state: Severity, hint: Hint)

  predicate IsIncrement(f: Finding) {
    f.Metadata? && f.hint.Increment?
  }
}
