/** The hive status evaluator of the dashboard modules: one latest reading is
    classified against fixed thresholds into an ordered list of alerts, an
    overall status and a summary text; the alert panel is then filled from them. */
module HiveStatus {
  import opened Telemetry

  // Thresholds used by the checks (degrees Celsius, percent, raw sensor units).
  const TEMP_MIN_CRITICAL: real := 30.0
  const TEMP_MAX_CRITICAL: real := 38.0
  const TEMP_WARNING_LOW: real := 33.0
  const TEMP_WARNING_HIGH: real := 36.0
  const HUM_MAX_CRITICAL: real := 85.0
  const HUM_WARNING_HIGH: real := 75.0
  const AUDIO_MAX_CRITICAL: real := 3000.0
  const AUDIO_WARNING_HIGH: real := 2000.0
  const WEIGHT_MIN: real := 1.0

  /** What an alert message reports; the message text itself is not modelled. */
  datatype AlertKind =
    | ConnectionFailure
    | CriticalTemperature
    | AbnormalTemperature
    | CriticalHumidity
    | HighHumidity
    | ExtremeNoise
    | HighNoise
    | MissingWeight

  /** The summary heading: the connection error text, or one chosen by status and alert count. */
  datatype Summary =
    | ConnectionErrorSummary
    | CriticalSummary(problems: nat)
    | WarningSummary(outOfRange: nat)
    | OkSummary

  datatype Evaluation = Evaluation(status: Severity, summary: Summary, alerts: seq<Alert<AlertKind>>)

  /** Which of the four checks can emit an alert of this kind (0 = temperature … 3 = weight). */
  function CheckIndex(k: AlertKind): nat {
    match k
    case ConnectionFailure => 0
    case CriticalTemperature => 0
    case AbnormalTemperature => 0
    case CriticalHumidity => 1
    case HighHumidity => 1
    case ExtremeNoise => 2
    case HighNoise => 2
    case MissingWeight => 3
  }

  function AsList(a: Option<Alert<AlertKind>>): (s: seq<Alert<AlertKind>>)
    ensures |s| <= 1
    ensures a.Some? ==> s == [a.value]
    ensures a.None? ==> s == []
  {
    if a.Some? then [a.value] else []
  }

  /** The temperature check: outside the critical band is danger, otherwise outside the comfort band is a warning. */
  function TemperatureAlert(t: Option<real>): (a: Option<Alert<AlertKind>>)
    ensures a.Some? ==> a.value.severity != Ok && CheckIndex(a.value.kind) == 0
  {
    if Above(t, TEMP_MAX_CRITICAL) || Below(t, TEMP_MIN_CRITICAL) then Some(Alert(Danger, CriticalTemperature))
    else if Above(t, TEMP_WARNING_HIGH) || Below(t, TEMP_WARNING_LOW) then Some(Alert(Warning, AbnormalTemperature))
    else None
  }

  /** The humidity check: only high humidity is checked. */
  function HumidityAlert(h: Option<real>): (a: Option<Alert<AlertKind>>)
    ensures a.Some? ==> a.value.severity != Ok && CheckIndex(a.value.kind) == 1
  {
    if Above(h, HUM_MAX_CRITICAL) then Some(Alert(Danger, CriticalHumidity))
    else if Above(h, HUM_WARNING_HIGH) then Some(Alert(Warning, HighHumidity))
    else None
  }

  /** The noise check. */
  function AudioAlert(n: Option<real>): (a: Option<Alert<AlertKind>>)
    ensures a.Some? ==> a.value.severity != Ok && CheckIndex(a.value.kind) == 2
  {
    if Above(n, AUDIO_MAX_CRITICAL) then Some(Alert(Danger, ExtremeNoise))
    else if Above(n, AUDIO_WARNING_HIGH) then Some(Alert(Warning, HighNoise))
    else None
  }

  /** The weight check `!weight || weight < 1`: a missing, zero or sub-gram weight is a sensor warning. */
  function WeightAlert(w: Option<real>): (a: Option<Alert<AlertKind>>)
    ensures a.Some? ==> a.value.severity != Ok && CheckIndex(a.value.kind) == 3
  {
    if !Truthy(w) || Below(w, WEIGHT_MIN) then Some(Alert(Warning, MissingWeight)) else None
  }

  /** The alerts of the four checks, in check order. */
  function ThresholdAlerts(r: Reading): (alerts: seq<Alert<AlertKind>>)
    ensures |alerts| <= 4
    ensures forall a :: a in alerts ==> a.kind != ConnectionFailure
  {
    AsList(TemperatureAlert(r.temperature)) + AsList(HumidityAlert(r.humidity))
      + AsList(AudioAlert(r.audio)) + AsList(WeightAlert(r.weight))
  }

  /** Alerts listed in strictly increasing check order. */
  predicate InCheckOrder(alerts: seq<Alert<AlertKind>>) {
    forall i, j :: 0 <= i < j < |alerts| ==> CheckIndex(alerts[i].kind) < CheckIndex(alerts[j].kind)
  }

  /** The alert of check `i` (0 = temperature, 1 = humidity, 2 = noise, 3 = weight). */
  function CheckAlert(r: Reading, i: nat): Option<Alert<AlertKind>>
    requires i < 4
  {
    if i == 0 then TemperatureAlert(r.temperature)
    else if i == 1 then HumidityAlert(r.humidity)
    else if i == 2 then AudioAlert(r.audio)
    else WeightAlert(r.weight)
  }

  /** The alerts pushed by the first `k` checks. */
  function ChecksUpTo(r: Reading, k: nat): seq<Alert<AlertKind>>
    requires k <= 4
  {
    if k == 0 then [] else ChecksUpTo(r, k - 1) + AsList(CheckAlert(r, k - 1))
  }

  /** The first `k` checks, unfolded: each adds its own alert, and all four give the threshold alerts. */
  lemma ChecksUpToUnfold(r: Reading)
    ensures ChecksUpTo(r, 1) == AsList(TemperatureAlert(r.temperature))
    ensures ChecksUpTo(r, 2) == ChecksUpTo(r, 1) + AsList(HumidityAlert(r.humidity))
    ensures ChecksUpTo(r, 3) == ChecksUpTo(r, 2) + AsList(AudioAlert(r.audio))
    ensures ChecksUpTo(r, 4) == ChecksUpTo(r, 3) + AsList(WeightAlert(r.weight))
    ensures ChecksUpTo(r, 4) == ThresholdAlerts(r)
  {
    assert ChecksUpTo(r, 1) == [] + AsList(TemperatureAlert(r.temperature));
  }

  /** The overall status the checks leave behind: the first check that fires decides it,
      because temperature always sets its own severity and every later check only
      raises the status while it is still `ok`. */
  function StatusOf(alerts: seq<Alert<AlertKind>>): Severity {
    if alerts == [] then Ok else alerts[0].severity
  }

  /** The summary heading chosen from the final status and the number of alerts. */
  function SummaryOf(status: Severity, count: nat): (s: Summary)
    ensures s.CriticalSummary? <==> status == Danger
    ensures s.WarningSummary? <==> status == Warning
    ensures s == OkSummary <==> status == Ok
    ensures s.CriticalSummary? ==> s.problems == count
    ensures s.WarningSummary? ==> s.outOfRange == count
  {
    match status
    case Danger => CriticalSummary(count)
    case Warning => WarningSummary(count)
    case Ok => OkSummary
  }

  /** Specification of `checkHiveStatus(data, error)`: `error` is whether an error object was passed. */
  function Evaluate(data: Option<Reading>, error: bool): Evaluation {
    if error || data.None? then
      Evaluation(Danger, ConnectionErrorSummary, [Alert(Danger, ConnectionFailure)])
    else
      var alerts := ThresholdAlerts(data.value);
      Evaluation(StatusOf(alerts), SummaryOf(StatusOf(alerts), |alerts|), alerts)
  }

  /** Check A (temperature): a critical value sets `danger` outright; an abnormal one sets
      `warning` unless the status is already `danger`. */
  method CheckTemperature(r: Reading, status: Severity, alerts: seq<Alert<AlertKind>>) returns (status': Severity, alerts': seq<Alert<AlertKind>>)
    ensures alerts' == alerts + AsList(TemperatureAlert(r.temperature))
    ensures TemperatureAlert(r.temperature).Some? ==> status' == Max(status, TemperatureAlert(r.temperature).value.severity)
    ensures TemperatureAlert(r.temperature).None? ==> status' == status
  {
    status', alerts' := status, alerts;
    if Above(r.temperature, TEMP_MAX_CRITICAL) || Below(r.temperature, TEMP_MIN_CRITICAL) {
      status' := Danger;
      alerts' := alerts' + [Alert(Danger, CriticalTemperature)];
    } else if Above(r.temperature, TEMP_WARNING_HIGH) || Below(r.temperature, TEMP_WARNING_LOW) {
      if status' != Danger { status' := Warning; }
      alerts' := alerts' + [Alert(Warning, AbnormalTemperature)];
    }
  }

  /** Check B (humidity): only a status that is still `ok` is raised. */
  method CheckHumidity(r: Reading, status: Severity, alerts: seq<Alert<AlertKind>>) returns (status': Severity, alerts': seq<Alert<AlertKind>>)
    ensures alerts' == alerts + AsList(HumidityAlert(r.humidity))
    ensures status' == if status == Ok && HumidityAlert(r.humidity).Some? then HumidityAlert(r.humidity).value.severity else status
  {
    status', alerts' := status, alerts;
    if Above(r.humidity, HUM_MAX_CRITICAL) {
      if status' == Ok { status' := Danger; }
      alerts' := alerts' + [Alert(Danger, CriticalHumidity)];
    } else if Above(r.humidity, HUM_WARNING_HIGH) {
      if status' == Ok { status' := Warning; }
      alerts' := alerts' + [Alert(Warning, HighHumidity)];
    }
  }

  /** Check C (noise): only a status that is still `ok` is raised. */
  method CheckAudio(r: Reading, status: Severity, alerts: seq<Alert<AlertKind>>) returns (status': Severity, alerts': seq<Alert<AlertKind>>)
    ensures alerts' == alerts + AsList(AudioAlert(r.audio))
    ensures status' == if status == Ok && AudioAlert(r.audio).Some? then AudioAlert(r.audio).value.severity else status
  {
    status', alerts' := status, alerts;
    if Above(r.audio, AUDIO_MAX_CRITICAL) {
      if status' == Ok { status' := Danger; }
      alerts' := alerts' + [Alert(Danger, ExtremeNoise)];
    } else if Above(r.audio, AUDIO_WARNING_HIGH) {
      if status' == Ok { status' := Warning; }
      alerts' := alerts' + [Alert(Warning, HighNoise)];
    }
  }

  /** Check D (weight): only a status that is still `ok` is raised. */
  method CheckWeight(r: Reading, status: Severity, alerts: seq<Alert<AlertKind>>) returns (status': Severity, alerts': seq<Alert<AlertKind>>)
    ensures alerts' == alerts + AsList(WeightAlert(r.weight))
    ensures status' == if status == Ok && WeightAlert(r.weight).Some? then Warning else status
  {
    status', alerts' := status, alerts;
    if !Truthy(r.weight) || Below(r.weight, WEIGHT_MIN) {
      if status' == Ok { status' := Warning; }
      alerts' := alerts' + [Alert(Warning, MissingWeight)];
    }
  }

  /** Raising a status only while it is `ok` keeps it equal to the first alert's severity. */
  lemma RaiseFromOkIsFirst(alerts: seq<Alert<AlertKind>>, fired: Option<Alert<AlertKind>>)
    requires StatusOf(alerts) == Ok <==> alerts == []
    requires fired.Some? ==> fired.value.severity != Ok
    ensures StatusOf(alerts + AsList(fired)) == Ok <==> alerts + AsList(fired) == []
    ensures StatusOf(alerts + AsList(fired))
            == if StatusOf(alerts) == Ok && fired.Some? then fired.value.severity else StatusOf(alerts)
    ensures Rank(StatusOf(alerts)) <= Rank(StatusOf(alerts + AsList(fired)))
  {
    if alerts != [] {
      assert (alerts + AsList(fired))[0] == alerts[0];
    } else {
      assert alerts + AsList(fired) == AsList(fired);
    }
  }

  /** Section 2 of `checkHiveStatus`: the four checks run one after the other on a status
      that starts at `ok`. `trace[k]` is the status after the first `k` checks. */
  method RunChecks(r: Reading) returns (currentStatus: Severity, alertMessages: seq<Alert<AlertKind>>, ghost trace: seq<Severity>)
    ensures alertMessages == ThresholdAlerts(r) && currentStatus == StatusOf(alertMessages)
    ensures |trace| == 5 && forall k :: 0 <= k < 5 ==> trace[k] == StatusOf(ChecksUpTo(r, k))
    ensures trace[4] == currentStatus
    ensures forall i :: 0 <= i < 4 ==> Rank(trace[i]) <= Rank(trace[i + 1])
  {
    ChecksUpToUnfold(r);
    currentStatus, alertMessages := Ok, [];
    currentStatus, alertMessages := CheckTemperature(r, currentStatus, alertMessages);
    RaiseFromOkIsFirst([], TemperatureAlert(r.temperature));
    ghost var afterTemperature := currentStatus;
    RaiseFromOkIsFirst(alertMessages, HumidityAlert(r.humidity));
    currentStatus, alertMessages := CheckHumidity(r, currentStatus, alertMessages);
    ghost var afterHumidity := currentStatus;
    RaiseFromOkIsFirst(alertMessages, AudioAlert(r.audio));
    currentStatus, alertMessages := CheckAudio(r, currentStatus, alertMessages);
    ghost var afterAudio := currentStatus;
    RaiseFromOkIsFirst(alertMessages, WeightAlert(r.weight));
    currentStatus, alertMessages := CheckWeight(r, currentStatus, alertMessages);
    trace := [Ok, afterTemperature, afterHumidity, afterAudio, currentStatus];
  }

  /** `checkHiveStatus` as written: the connection check, the four checks on a local status
      and alert list, then the summary text. `trace` records the status after each step: with
      a reading, `trace[k]` is the status the first `k` checks leave. */
  method CheckHiveStatus(data: Option<Reading>, error: bool) returns (e: Evaluation, ghost trace: seq<Severity>)
    ensures e == Evaluate(data, error)
    ensures error || data.None? ==> trace == [Ok, Danger]
    ensures !error && data.Some? ==>
              |trace| == 5 && forall k :: 0 <= k < 5 ==> trace[k] == StatusOf(ChecksUpTo(data.value, k))
    ensures |trace| >= 2 && trace[0] == Ok && trace[|trace| - 1] == e.status
    ensures forall i :: 0 <= i < |trace| - 1 ==> Rank(trace[i]) <= Rank(trace[i + 1])
  {
    var currentStatus := Ok;
    var alertMessages: seq<Alert<AlertKind>> := [];
    if error || data.None? {
      currentStatus := Danger;
      alertMessages := alertMessages + [Alert(Danger, ConnectionFailure)];
      trace := [Ok, currentStatus];
      e := Evaluation(currentStatus, ConnectionErrorSummary, alertMessages);
      return;
    }
    currentStatus, alertMessages, trace := RunChecks(data.value);
    var summaryText := if currentStatus == Danger then CriticalSummary(|alertMessages|)
                       else if currentStatus == Warning then WarningSummary(|alertMessages|)
                       else OkSummary;
    e := Evaluation(currentStatus, summaryText, alertMessages);
  }

  // ----- The alert panel -----

  /** The discreet alert counter on the general card. */
  datatype AlertCounter = Count(alerts: nat) | Ninguna

  /** One item of the alert list: the placeholder, or one alert with its severity icon. */
  datatype ListItem = NoActiveAlerts | AlertItem(severity: Severity, kind: AlertKind)

  function CounterFor(count: nat): (c: AlertCounter)
    ensures c == Ninguna <==> count == 0
    ensures c.Count? ==> c.alerts == count
  {
    if count > 0 then Count(count) else Ninguna
  }

  /** The items appended for the alerts, one per alert, as the list is filled. */
  function ItemsOf(messages: seq<Alert<AlertKind>>): (items: seq<ListItem>)
    ensures |items| == |messages|
  {
    if messages == [] then []
    else
      var last := messages[|messages| - 1];
      ItemsOf(messages[..|messages| - 1]) + [AlertItem(last.severity, last.kind)]
  }

  lemma {:induction false} ItemsOfAt(messages: seq<Alert<AlertKind>>, k: nat)
    requires k < |messages|
    ensures |ItemsOf(messages)| == |messages|
    ensures ItemsOf(messages)[k] == AlertItem(messages[k].severity, messages[k].kind)
  {
    var n := |messages| - 1;
    if k < n {
      ItemsOfAt(messages[..n], k);
    } else if n > 0 {
      ItemsOfAt(messages[..n], 0);
    }
  }

  /** The alert list after it is emptied and refilled: the placeholder alone when there is no alert. */
  function ListItems(messages: seq<Alert<AlertKind>>): seq<ListItem> {
    if messages == [] then [NoActiveAlerts] else ItemsOf(messages)
  }

  /** One list item per alert, in alert order; the placeholder only when there is none. */
  lemma ListItemsMatchAlerts(messages: seq<Alert<AlertKind>>)
    ensures messages == [] ==> ListItems(messages) == [NoActiveAlerts]
    ensures messages != [] ==> |ListItems(messages)| == |messages|
    ensures forall k :: 0 <= k < |messages| ==> ListItems(messages)[k] == AlertItem(messages[k].severity, messages[k].kind)
  {
    forall k | 0 <= k < |messages|
      ensures ListItems(messages)[k] == AlertItem(messages[k].severity, messages[k].kind)
    {
      ItemsOfAt(messages, k);
    }
    if messages != [] {
      ItemsOfAt(messages, 0);
    }
  }

  /** The alert block of the page: the summary's status class and heading, the optional
      counter and the optional alert list. */
  class AlertPanel {
    var statusClass: Severity
    var heading: Summary
    var counter: AlertCounter
    var items: seq<ListItem>
    const hasCounter: bool
    const hasList: bool

    constructor (hasCounter: bool, hasList: bool)
      ensures this.hasCounter == hasCounter && this.hasList == hasList
      ensures statusClass == Ok && items == []
    {
      this.hasCounter, this.hasList := hasCounter, hasList;
      statusClass, heading, counter, items := Ok, OkSummary, Ninguna, [];
    }

    /** `updateAlertVisuals`: restyle the summary, set its heading, update the counter and
        empty and refill the list, each only where the element exists. */
    method UpdateAlertVisuals(status: Severity, summaryText: Summary, messages: seq<Alert<AlertKind>>)
      modifies this
      ensures statusClass == status && heading == summaryText
      ensures counter == if hasCounter then CounterFor(|messages|) else old(counter)
      ensures items == if hasList then ListItems(messages) else old(items)
    {
      statusClass := status;
      heading := summaryText;
      if hasCounter {
        counter := if |messages| > 0 then Count(|messages|) else Ninguna;
      }
      if hasList {
        var list: seq<ListItem> := [];
        if |messages| == 0 {
          list := list + [NoActiveAlerts];
        } else {
          var i := 0;
          while i < |messages|
            invariant 0 <= i <= |messages|
            invariant list == ItemsOf(messages[..i])
          {
            assert messages[..i + 1][..i] == messages[..i];
            list := list + [AlertItem(messages[i].severity, messages[i].kind)];
            i := i + 1;
          }
          assert messages[..i] == messages;
        }
        items := list;
      }
    }
  }

  // ----- Properties of the evaluation -----

  /** An error or a missing reading short-circuits: one connection alert, status danger. */
  lemma ConnectionFailureShortCircuits(data: Option<Reading>, error: bool)
    requires error || data.None?
    ensures Evaluate(data, error).status == Danger
    ensures Evaluate(data, error).alerts == [Alert(Danger, ConnectionFailure)]
    ensures Evaluate(data, error).summary == ConnectionErrorSummary
  {
  }

  /** With a reading and no error, the status is `ok` exactly when no check fired. */
  lemma OkIffNoAlerts(r: Reading)
    ensures Evaluate(Some(r), false).status == Ok <==> Evaluate(Some(r), false).alerts == []
  {
  }

  /** Once a check fired the status is at least `warning` and at most the most severe alert;
      a critical temperature always makes it `danger`, and so does the first check to fire
      when it is critical. */
  lemma StatusBounds(r: Reading)
    ensures var e := Evaluate(Some(r), false);
            e.alerts != [] ==> Rank(Warning) <= Rank(e.status) <= Rank(MaxOf(Severities(e.alerts)))
    ensures var e := Evaluate(Some(r), false);
            e.alerts != [] && e.alerts[0].severity == Danger ==> e.status == Danger
    ensures TemperatureAlert(r.temperature).Some? ==> Evaluate(Some(r), false).status == TemperatureAlert(r.temperature).value.severity
  {
    var e := Evaluate(Some(r), false);
    if e.alerts != [] {
      assert Severities(e.alerts)[0] == e.status;
    }
  }

  /** A list of at most one alert, all of them from check `k`. */
  predicate FromCheck(s: seq<Alert<AlertKind>>, k: nat) {
    |s| <= 1 && forall a :: a in s ==> CheckIndex(a.kind) == k && a.severity != Ok
  }

  lemma FourChecksInOrder(t: seq<Alert<AlertKind>>, h: seq<Alert<AlertKind>>, n: seq<Alert<AlertKind>>, w: seq<Alert<AlertKind>>)
    requires FromCheck(t, 0) && FromCheck(h, 1) && FromCheck(n, 2) && FromCheck(w, 3)
    ensures InCheckOrder(t + h + n + w)
  {
    var s := t + h + n + w;
    forall i, j | 0 <= i < j < |s|
      ensures CheckIndex(s[i].kind) < CheckIndex(s[j].kind)
    {
      assert s[i] in s && s[j] in s;
      // Each check adds at most one alert, so position k holds an alert of check k or a later one.
      assert forall k :: 0 <= k < |s| ==> CheckIndex(s[k].kind) >= k
        by {
          forall k | 0 <= k < |s| ensures CheckIndex(s[k].kind) >= k {
            if k < |t| { assert s[k] == t[k]; }
            else if k < |t| + |h| { assert s[k] == h[k - |t|]; }
            else if k < |t| + |h| + |n| { assert s[k] == n[k - |t| - |h|]; }
            else { assert s[k] == w[k - |t| - |h| - |n|]; }
          }
        }
    }
  }

  /** Alerts appear in the order temperature, humidity, noise, weight: at most one per check. */
  lemma AlertsInCheckOrder(r: Reading)
    ensures InCheckOrder(ThresholdAlerts(r))
  {
    FourChecksInOrder(AsList(TemperatureAlert(r.temperature)), AsList(HumidityAlert(r.humidity)),
                      AsList(AudioAlert(r.audio)), AsList(WeightAlert(r.weight)));
  }

  /** The temperature bands: outside 30..38 °C is critical, otherwise outside 33..36 °C is
      abnormal, and a missing temperature fires nothing. */
  lemma TemperatureBands(t: real)
    ensures TemperatureAlert(Some(t)) == Some(Alert(Danger, CriticalTemperature)) <==> t < 30.0 || t > 38.0
    ensures TemperatureAlert(Some(t)) == Some(Alert(Warning, AbnormalTemperature)) <==> (30.0 <= t < 33.0 || 36.0 < t <= 38.0)
    ensures TemperatureAlert(Some(t)).None? <==> 33.0 <= t <= 36.0
    ensures TemperatureAlert(None).None?
  {
  }

  /** The humidity bands: above 85 % is critical, above 75 % high. */
  lemma HumidityBands(h: real)
    ensures HumidityAlert(Some(h)) == Some(Alert(Danger, CriticalHumidity)) <==> h > 85.0
    ensures HumidityAlert(Some(h)) == Some(Alert(Warning, HighHumidity)) <==> 75.0 < h <= 85.0
    ensures HumidityAlert(Some(h)).None? <==> h <= 75.0
    ensures HumidityAlert(None).None?
  {
  }

  /** The noise bands: above 3000 is extreme, above 2000 high. */
  lemma AudioBands(n: real)
    ensures AudioAlert(Some(n)) == Some(Alert(Danger, ExtremeNoise)) <==> n > 3000.0
    ensures AudioAlert(Some(n)) == Some(Alert(Warning, HighNoise)) <==> 2000.0 < n <= 3000.0
    ensures AudioAlert(Some(n)).None? <==> n <= 2000.0
    ensures AudioAlert(None).None?
  {
  }

  /** The weight check fires for a missing weight and for any weight below 1 g, zero included. */
  lemma WeightBand(w: real)
    ensures WeightAlert(Some(w)) == Some(Alert(Warning, MissingWeight)) <==> w < 1.0
    ensures WeightAlert(Some(w)).None? <==> w >= 1.0
    ensures WeightAlert(None) == Some(Alert(Warning, MissingWeight))
  {
  }

  /** A critical humidity reading does not raise a temperature warning: the status stays
      `warning` while a `danger` alert is listed. */
  lemma WarningBesideDangerAlert()
    ensures var e := Evaluate(Some(Reading(0, Some(100.0), Some(37.0), Some(90.0), Some(0.0))), false);
            e.status == Warning && Alert(Danger, CriticalHumidity) in e.alerts
  {
  }

  /** The reading {weight 14000, temperature 39, humidity 60, audio 500} fires only the
      temperature check: a 14 kg weight is present and above 1 g. */
  lemma HeavyHotHiveExample()
    ensures var e := Evaluate(Some(Reading(0, Some(14000.0), Some(39.0), Some(60.0), Some(500.0))), false);
            e.status == Danger && e.alerts == [Alert(Danger, CriticalTemperature)]
            && e.summary == CriticalSummary(1)
  {
  }
}
