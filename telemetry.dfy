/** Values shared by the dashboard modules: sensor readings, severities,
    calendar days and the optional values that JSON's null/undefined become. */
module Telemetry {

  /** A JSON value that may be null or undefined (None). */
  datatype Option<+T> = None | Some(value: T) {
    function GetOr(default: T): T {
      match this
      case Some(v) => v
      case None => default
    }
  }

  /** One sensor reading as the server returns it: each metric may be missing. */
  datatype Reading = Reading(
    timestamp: int,
    weight: Option<real>,
    temperature: Option<real>,
    humidity: Option<real>,
    audio: Option<real>)

  /** The four measured quantities, in the order the dashboard lists them. */
  datatype Metric = Weight | Temperature | Humidity | Audio

  function Value(r: Reading, m: Metric): Option<real> {
    match m
    case Weight => r.weight
    case Temperature => r.temperature
    case Humidity => r.humidity
    case Audio => r.audio
  }

  /** The three CSS status classes `status-ok`, `status-warning`, `status-danger`. */
  datatype Severity = Ok | Warning | Danger

  function Rank(s: Severity): nat {
    match s
    case Ok => 0
    case Warning => 1
    case Danger => 2
  }

  function Max(a: Severity, b: Severity): (m: Severity)
    ensures Rank(m) >= Rank(a) && Rank(m) >= Rank(b)
    ensures m == a || m == b
  {
    if Rank(a) >= Rank(b) then a else b
  }

  /** The most severe of a list of severities (`ok` for none). */
  function MaxOf(s: seq<Severity>): (m: Severity)
    ensures forall i :: 0 <= i < |s| ==> Rank(s[i]) <= Rank(m)
    ensures m == Ok || m in s
  {
    if s == [] then Ok else Max(s[0], MaxOf(s[1..]))
  }

  /** One alert of a status evaluation: its severity and what it reports. */
  datatype Alert<K> = Alert(severity: Severity, kind: K)

  function Severities<K>(alerts: seq<Alert<K>>): (s: seq<Severity>)
    ensures |s| == |alerts| && forall i :: 0 <= i < |alerts| ==> s[i] == alerts[i].severity
  {
    seq(|alerts|, i requires 0 <= i < |alerts| => alerts[i].severity)
  }

  /** Extending a list by one severity raises its maximum to at least that severity. */
  lemma {:induction false} MaxOfAppend(s: seq<Severity>, x: Severity)
    ensures MaxOf(s + [x]) == Max(MaxOf(s), x)
  {
    if s != [] {
      assert (s + [x])[1..] == s[1..] + [x];
      MaxOfAppend(s[1..], x);
    }
  }

  /** A calendar date as a number of days; `d + 1` is the next day. */
  type Day = int

  /** An hour of the day as returned by `Date.getHours()`. */
  type Hour = h: nat | h < 24

  /** A JavaScript numeric comparison `v > t` where a missing value compares false. */
  predicate Above(v: Option<real>, t: real) {
    v.Some? && v.value > t
  }

  /** A JavaScript numeric comparison `v < t` where a missing value compares false. */
  predicate Below(v: Option<real>, t: real) {
    v.Some? && v.value < t
  }

  /** JavaScript truthiness of a number that may be null or undefined. */
  predicate Truthy(v: Option<real>) {
    v.Some? && v.value != 0.0
  }
}
