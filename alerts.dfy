/** Shared vocabulary of the three alert actions: the parsed alert record,
    the process environment and the small failure-compatible wrappers. */
module Alerts {

  datatype Option<+T> = None | Some(value: T)

  datatype Result<+T, +E> = Ok(value: T) | Err(error: E)

  /** The process environment; a variable that is not set reads as "". */
  type Env = map<string, string>

  function Getenv(env: Env, key: string): string
  {
    if key in env then env[key] else ""
  }

  /** Go's `m[k]` on a `map[string]string`: a missing key reads as "". */
  function Lookup(m: map<string, string>, key: string): string
  {
    if key in m then m[key] else ""
  }

  /** A Go map field that may be nil: a nil map reads as "" for every key. */
  function MapValue(m: Option<map<string, string>>, key: string): string
  {
    match m
    case None => ""
    case Some(entries) => Lookup(entries, key)
  }

  /** getValueWithFallback: `primary` unless it is empty, then `fallback`.
      This is the one fallback rule every payload field follows. */
  function GetValueWithFallback(primary: string, fallback: string): (r: string)
    ensures primary != "" ==> r == primary
    ensures primary == "" ==> r == fallback
    ensures r == "" <==> primary == "" && fallback == ""
  {
    if primary != "" then primary else fallback
  }

  /** The fallback statement `if v == "" { v = os.Getenv(key) }`. */
  method FallbackToEnv(value: string, env: Env, key: string) returns (r: string)
    ensures r == GetValueWithFallback(value, Getenv(env, key))
  {
    r := value;
    if r == "" {
      r := Getenv(env, key);
    }
  }

  /** The alert record decoded from ALERT_JSON. `labels` and `annotations`
      are None when the JSON leaves them out (a nil Go map). */
  datatype AlertData = AlertData(
    status: string,
    labels: Option<map<string, string>>,
    annotations: Option<map<string, string>>,
    startsAt: string,
    endsAt: string)

  /** The record value of a label, or "" when there is no record, no label map
      or no such key. */
  function LabelOf(alert: Option<AlertData>, key: string): string
  {
    if alert.Some? then MapValue(alert.value.labels, key) else ""
  }

  /** The record value of an annotation, "" when absent (as LabelOf). */
  function AnnotationOf(alert: Option<AlertData>, key: string): string
  {
    if alert.Some? then MapValue(alert.value.annotations, key) else ""
  }

  /** The record's status, or "" when there is no record. */
  function StatusOf(alert: Option<AlertData>): string
  {
    if alert.Some? then alert.value.status else ""
  }
}
