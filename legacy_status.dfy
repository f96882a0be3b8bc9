/** The older, standalone status evaluator of the single-file dashboard script.
    It has its own thresholds and check order, treats a missing reading as a
    warning, and its overall status is the most severe alert. */
module LegacyStatus {
  import opened Telemetry

  const WEIGHT_LOW: real := 15000.0
  const TEMP_HIGH: real := 36.0
  const TEMP_LOW: real := 30.0
  const HUMIDITY_HIGH: real := 70.0
  const AUDIO_HIGH: real := 3000.0

  datatype AlertKind =
    | ConnectionError
    | NoRecentData
    | LowWeight
    | HighTemperature
    | LowTemperature
    | HighHumidity
    | LoudNoise

  /** The main status message. */
  datatype Message =
    | AllGood                  // "Todo en Orden. Colmena estable."
    | AlertsDetected(count: nat)
    | ConnectionErrorMessage
    | NoRecentDataMessage
    | InitialMessage           // "Todo en Orden.", the value before any branch assigns one

  /** One item of the alert list. */
  datatype ListItem = NoProblemsDetected | AlertItem(severity: Severity, kind: AlertKind)

  datatype Evaluation = Evaluation(status: Severity, message: Message, alerts: seq<Alert<AlertKind>>, items: seq<ListItem>)

  /** Which check emits an alert of this kind, in check order (weight first). */
  function CheckIndex(k: AlertKind): nat {
    match k
    case ConnectionError => 0
    case NoRecentData => 0
    case LowWeight => 0
    case HighTemperature => 1
    case LowTemperature => 1
    case HighHumidity => 2
    case LoudNoise => 3
  }

  /** A metric read with `?? 0`: a missing value counts as zero. */
  function OrZero(v: Option<real>): real {
    v.GetOr(0.0)
  }

  function WeightAlerts(w: real): seq<Alert<AlertKind>> {
    if w < WEIGHT_LOW then [Alert(Warning, LowWeight)] else []
  }

  function TemperatureAlerts(t: real): seq<Alert<AlertKind>> {
    if t > TEMP_HIGH then [Alert(Danger, HighTemperature)]
    else if t < TEMP_LOW then [Alert(Warning, LowTemperature)]
    else []
  }

  function HumidityAlerts(h: real): seq<Alert<AlertKind>> {
    if h > HUMIDITY_HIGH then [Alert(Warning, HighHumidity)] else []
  }

  function AudioAlerts(a: real): seq<Alert<AlertKind>> {
    if a > AUDIO_HIGH then [Alert(Danger, LoudNoise)] else []
  }

  /** The four threshold checks in source order: weight, temperature, humidity, noise. */
  function ThresholdAlerts(r: Reading): (alerts: seq<Alert<AlertKind>>)
    ensures |alerts| <= 4
    ensures forall i, j :: 0 <= i < j < |alerts| ==> CheckIndex(alerts[i].kind) < CheckIndex(alerts[j].kind)
  {
    WeightAlerts(OrZero(r.weight)) + TemperatureAlerts(OrZero(r.temperature))
    + HumidityAlerts(OrZero(r.humidity)) + AudioAlerts(OrZero(r.audio))
  }

  /** The alerts of one evaluation: a connection error, a missing reading, or the threshold checks. */
  function AlertsFor(data: Option<Reading>, error: bool): seq<Alert<AlertKind>> {
    if error then [Alert(Danger, ConnectionError)]
    else if data.None? then [Alert(Warning, NoRecentData)]
    else ThresholdAlerts(data.value)
  }

  /** The main message, with every branch the source has. */
  function MessageFor(data: Option<Reading>, error: bool, alerts: seq<Alert<AlertKind>>): Message {
    if |alerts| == 0 && data.Some? then AllGood
    else if |alerts| > 0 then AlertsDetected(|alerts|)
    else if error then ConnectionErrorMessage
    else if data.None? then NoRecentDataMessage
    else InitialMessage
  }

  function ItemsFor(data: Option<Reading>, alerts: seq<Alert<AlertKind>>): seq<ListItem> {
    if |alerts| == 0 && data.Some? then [NoProblemsDetected]
    else seq(|alerts|, i requires 0 <= i < |alerts| => AlertItem(alerts[i].severity, alerts[i].kind))
  }

  /** Specification of the legacy `checkHiveStatus(data, error)`: the status is the most severe alert. */
  function Evaluate(data: Option<Reading>, error: bool): Evaluation {
    var alerts := AlertsFor(data, error);
    Evaluation(MaxOf(Severities(alerts)), MessageFor(data, error, alerts), alerts, ItemsFor(data, alerts))
  }

  /** Appending an alert raises the most severe severity to at least the new alert's. */
  lemma PushRaisesMax(alerts: seq<Alert<AlertKind>>, a: Alert<AlertKind>)
    ensures MaxOf(Severities(alerts + [a])) == Max(MaxOf(Severities(alerts)), a.severity)
  {
    assert Severities(alerts + [a]) == Severities(alerts) + [a.severity];
    MaxOfAppend(Severities(alerts), a.severity);
  }

  /** The running status is the most severe alert so far. */
  ghost predicate Tracks(alerts: seq<Alert<AlertKind>>, status: Severity) {
    status == MaxOf(Severities(alerts))
  }

  /** The weight check: below 15000 g pushes a warning, which raises the status only from `ok`. */
  method CheckWeight(weight: real, alerts: seq<Alert<AlertKind>>, status: Severity)
    returns (alerts': seq<Alert<AlertKind>>, status': Severity)
    requires Tracks(alerts, status)
    ensures alerts' == alerts + WeightAlerts(weight) && Tracks(alerts', status')
  {
    alerts', status' := alerts, status;
    if weight < WEIGHT_LOW {
      PushRaisesMax(alerts', Alert(Warning, LowWeight));
      alerts' := alerts' + [Alert(Warning, LowWeight)];
      if status' == Ok { status' := Warning; }
    }
  }

  /** The temperature check: above 36 pushes a danger and sets the status to `danger`; else
      below 30 pushes a warning, which raises the status only from `ok`. */
  method CheckTemperature(temperature: real, alerts: seq<Alert<AlertKind>>, status: Severity)
    returns (alerts': seq<Alert<AlertKind>>, status': Severity)
    requires Tracks(alerts, status)
    ensures alerts' == alerts + TemperatureAlerts(temperature) && Tracks(alerts', status')
  {
    alerts', status' := alerts, status;
    if temperature > TEMP_HIGH {
      PushRaisesMax(alerts', Alert(Danger, HighTemperature));
      alerts' := alerts' + [Alert(Danger, HighTemperature)];
      status' := Danger;
    } else if temperature < TEMP_LOW {
      PushRaisesMax(alerts', Alert(Warning, LowTemperature));
      alerts' := alerts' + [Alert(Warning, LowTemperature)];
      if status' == Ok { status' := Warning; }
    }
  }

  /** The humidity check: above 70 % pushes a warning, which raises the status only from `ok`. */
  method CheckHumidity(humidity: real, alerts: seq<Alert<AlertKind>>, status: Severity)
    returns (alerts': seq<Alert<AlertKind>>, status': Severity)
    requires Tracks(alerts, status)
    ensures alerts' == alerts + HumidityAlerts(humidity) && Tracks(alerts', status')
  {
    alerts', status' := alerts, status;
    if humidity > HUMIDITY_HIGH {
      PushRaisesMax(alerts', Alert(Warning, HighHumidity));
      alerts' := alerts' + [Alert(Warning, HighHumidity)];
      if status' == Ok { status' := Warning; }
    }
  }

  /** The noise check: above 3000 pushes a danger and sets the status to `danger`. */
  method CheckAudio(audio: real, alerts: seq<Alert<AlertKind>>, status: Severity)
    returns (alerts': seq<Alert<AlertKind>>, status': Severity)
    requires Tracks(alerts, status)
    ensures alerts' == alerts + AudioAlerts(audio) && Tracks(alerts', status')
  {
    alerts', status' := alerts, status;
    if audio > AUDIO_HIGH {
      PushRaisesMax(alerts', Alert(Danger, LoudNoise));
      alerts' := alerts' + [Alert(Danger, LoudNoise)];
      status' := Danger;
    }
  }

  /** The threshold branch of the legacy `checkHiveStatus`: the four checks in source order,
      each pushing its alert and raising the running status. */
  method CheckThresholds(r: Reading) returns (alerts: seq<Alert<AlertKind>>, overallStatus: Severity)
    ensures alerts == ThresholdAlerts(r)
    ensures overallStatus == MaxOf(Severities(alerts))
  {
    alerts, overallStatus := [], Ok;
    var weight, temperature, humidity, audio := OrZero(r.weight), OrZero(r.temperature), OrZero(r.humidity), OrZero(r.audio);
    alerts, overallStatus := CheckWeight(weight, alerts, overallStatus);
    alerts, overallStatus := CheckTemperature(temperature, alerts, overallStatus);
    alerts, overallStatus := CheckHumidity(humidity, alerts, overallStatus);
    alerts, overallStatus := CheckAudio(audio, alerts, overallStatus);
  }

  /** The legacy `checkHiveStatus(data, error)` as written: collect the alerts and the running
      status, choose the main message, then refill the list alert by alert. */
  method CheckHiveStatus(data: Option<Reading>, error: bool) returns (e: Evaluation)
    ensures e == Evaluate(data, error)
  {
    var alerts: seq<Alert<AlertKind>>;
    var overallStatus: Severity;
    if error {
      alerts := [Alert(Danger, ConnectionError)];
      overallStatus := Danger;
    } else if data.None? {
      alerts := [Alert(Warning, NoRecentData)];
      overallStatus := Warning;
    } else {
      alerts, overallStatus := CheckThresholds(data.value);
    }

    var finalMessage := InitialMessage;
    var items: seq<ListItem> := [];
    if |alerts| == 0 && data.Some? {
      finalMessage := AllGood;
      items := [NoProblemsDetected];
    } else {
      if |alerts| > 0 {
        finalMessage := AlertsDetected(|alerts|);
      } else if error {
        finalMessage := ConnectionErrorMessage;
      } else if data.None? {
        finalMessage := NoRecentDataMessage;
      }
      var i := 0;
      while i < |alerts|
        invariant 0 <= i <= |alerts|
        invariant |items| == i
        invariant forall k :: 0 <= k < i ==> items[k] == AlertItem(alerts[k].severity, alerts[k].kind)
      {
        items := items + [AlertItem(alerts[i].severity, alerts[i].kind)];
        i := i + 1;
      }
    }
    e := Evaluation(overallStatus, finalMessage, alerts, items);
  }

  // ----- Properties -----

  /** A connection error gives exactly one danger alert. */
  lemma ErrorIsOneDanger(data: Option<Reading>)
    ensures Evaluate(data, true).alerts == [Alert(Danger, ConnectionError)]
    ensures Evaluate(data, true).status == Danger
  {
  }

  /** Without an error, a missing reading gives exactly one warning. */
  lemma NoDataIsOneWarning()
    ensures Evaluate(None, false).alerts == [Alert(Warning, NoRecentData)]
    ensures Evaluate(None, false).status == Warning
  {
  }

  /** A missing metric counts as zero, so a reading without a weight always warns of low weight first. */
  lemma MissingWeightWarns(r: Reading)
    requires r.weight.None?
    ensures Evaluate(Some(r), false).alerts[0] == Alert(Warning, LowWeight)
  {
  }

  /** The status is `ok` exactly when nothing fired, and it is one of the alerts' severities otherwise. */
  lemma StatusIsMostSevereAlert(data: Option<Reading>, error: bool)
    ensures var e := Evaluate(data, error);
            (e.status == Ok <==> e.alerts == [])
            && (e.alerts != [] ==> exists i :: 0 <= i < |e.alerts| && e.alerts[i].severity == e.status)
            && forall i :: 0 <= i < |e.alerts| ==> Rank(e.alerts[i].severity) <= Rank(e.status)
  {
    var e := Evaluate(data, error);
    var s := Severities(e.alerts);
    if e.alerts != [] {
      assert e.status in s;
      var i :| 0 <= i < |s| && s[i] == e.status;
      assert e.alerts[i].severity == e.status;
    } else {
      assert s == [];
    }
  }

  /** Only two messages can be shown: the all-good one when nothing fired (which needs a reading),
      and the alert count otherwise; the error and no-data messages are never reached. */
  lemma MessageIsAllGoodOrCount(data: Option<Reading>, error: bool)
    ensures var e := Evaluate(data, error);
            e.message == if e.alerts == [] then AllGood else AlertsDetected(|e.alerts|)
  {
  }

  /** The list shows one item per alert in order, or the single "no problems" item. */
  lemma ItemsMatchAlerts(data: Option<Reading>, error: bool)
    ensures var e := Evaluate(data, error);
            (e.alerts == [] ==> e.items == [NoProblemsDetected])
            && (e.alerts != [] ==>
                  |e.items| == |e.alerts|
                  && forall k :: 0 <= k < |e.alerts| ==> e.items[k] == AlertItem(e.alerts[k].severity, e.alerts[k].kind))
  {
  }

  /** The reading {weight 14000, temperature 39, humidity 60, audio 500} gives a `danger`
      status with the low-weight warning listed before the high-temperature danger. */
  lemma HeavyHotHiveExample()
    ensures var e := Evaluate(Some(Reading(0, Some(14000.0), Some(39.0), Some(60.0), Some(500.0))), false);
            e.status == Danger
            && e.alerts == [Alert(Warning, LowWeight), Alert(Danger, HighTemperature)]
            && e.message == AlertsDetected(2)
  {
  }
}
