/** The single-file dashboard script: its own status evaluator (module LegacyStatus), and
    its own copies of the filter defaults, history request, date limits and card clicks,
    which differ from the modular client in the details modelled here. */
module LegacyApp {
  import opened Telemetry
  import LegacyStatus
  import opened Charts
  import opened Filters
  import opened Api

  // ----- /latest -----

  /** The legacy `updateLatestData()`: the same classification of the response as the
      modular client, handed to the legacy evaluator. */
  function UpdateLatestData(o: LatestOutcome): (e: LegacyStatus.Evaluation)
    ensures o.Received? && o.body.RecordBody? ==> e == LegacyStatus.Evaluate(Some(o.body.reading), false)
    ensures o.Received? && !o.body.RecordBody? ==> e == LegacyStatus.Evaluate(None, false)
    ensures !o.Received? ==> e == LegacyStatus.Evaluate(None, true)
  {
    match o
    case Received(RecordBody(r)) => LegacyStatus.Evaluate(Some(r), false)
    case Received(_) => LegacyStatus.Evaluate(None, false)
    case _ => LegacyStatus.Evaluate(None, true)
  }

  /** Here an empty database is only a warning, while a failed request is a danger. */
  lemma LatestSeverities(o: LatestOutcome)
    ensures !o.Received? ==> UpdateLatestData(o).status == Danger
    ensures o.Received? && !o.body.RecordBody? ==> UpdateLatestData(o).status == Warning
    ensures !(o.Received? && o.body.RecordBody?) ==> |UpdateLatestData(o).alerts| == 1
  {
    LegacyStatus.NoDataIsOneWarning();
    LegacyStatus.ErrorIsOneDanger(None);
  }

  // ----- filter defaults -----

  /** The wall clock as the legacy form reads it: today's (UTC) date and the local hour and minute. */
  datatype Clock = Clock(today: Day, hour: Hour, minute: nat)

  /** `toLocaleTimeString('es-ES', {hour: '2-digit', minute: '2-digit', hour12: false})`. */
  function ClockLabel(hour: Hour, minute: nat): (s: string)
    requires minute < 60
    ensures |s| == 5 && s[2] == ':'
    ensures s[..2] == HourLabel(hour)[..2]
  {
    [Digit(hour / 10), Digit(hour % 10), ':', Digit(minute / 10), Digit(minute % 10)]
  }

  /** Reads an `HH:MM` time back as an hour and a minute; None for anything else. */
  function ParseClock(s: string): Option<(Hour, nat)> {
    if |s| == 5 && IsDigit(s[0]) && IsDigit(s[1]) && s[2] == ':' && IsDigit(s[3]) && IsDigit(s[4])
       && (s[0] as int - 48) * 10 + (s[1] as int - 48) < 24
       && (s[3] as int - 48) * 10 + (s[4] as int - 48) < 60
    then Some(((s[0] as int - 48) * 10 + (s[1] as int - 48), (s[3] as int - 48) * 10 + (s[4] as int - 48)))
    else None
  }

  /** Every clock label reads back as its hour and minute, and only that label does. */
  lemma ClockLabelRoundTrip(hour: Hour, minute: nat, s: string)
    requires minute < 60
    ensures ParseClock(ClockLabel(hour, minute)) == Some((hour, minute))
    ensures ParseClock(s) == Some((hour, minute)) ==> s == ClockLabel(hour, minute)
  {
    var l := ClockLabel(hour, minute);
    assert (l[0] as int - 48) * 10 + (l[1] as int - 48) == hour;
    assert (l[3] as int - 48) * 10 + (l[4] as int - 48) == minute;
    if ParseClock(s) == Some((hour, minute)) {
      var h1, h0 := s[0] as int - 48, s[1] as int - 48;
      var m1, m0 := s[3] as int - 48, s[4] as int - 48;
      assert 0 <= h0 < 10 && 0 <= h1 && 0 <= m0 < 10 && 0 <= m1;
      assert h1 == hour / 10 && h0 == hour % 10;
      assert m1 == minute / 10 && m0 == minute % 10;
      assert s == [s[0], s[1], s[2], s[3], s[4]];
    }
  }

  /** The legacy default window: the same dates as the modular one, but ending at the current
      hour and minute on today's date and at 23:59 on any other. */
  function LegacyWindow(minDate: Option<Day>, maxDate: Option<Day>, now: Clock): (w: Window)
    requires now.minute < 60
  {
    var dates := Filters.DefaultWindow(minDate, maxDate, Now(now.today, now.hour));
    Window(dates.startDate, dates.endDate, "00:00",
           if dates.endDate == now.today then ClockLabel(now.hour, now.minute) else "23:59")
  }

  /** The legacy window agrees with the modular one on the dates and the start time; its end
      time is the modular one only on today's date at minute 0, and "23:59" is not a grid hour. */
  lemma LegacyWindowAgainstModular(minDate: Option<Day>, maxDate: Option<Day>, now: Clock)
    requires now.minute < 60
    ensures var l, m := LegacyWindow(minDate, maxDate, now), Filters.DefaultWindow(minDate, maxDate, Now(now.today, now.hour));
            l.startDate == m.startDate && l.endDate == m.endDate && l.startTime == m.startTime
            && (l.endTime == m.endTime <==> l.endDate == now.today && now.minute == 0)
            && (l.endDate != now.today ==> l.endTime !in HourGrid())
  {
    var l, m := LegacyWindow(minDate, maxDate, now), Filters.DefaultWindow(minDate, maxDate, Now(now.today, now.hour));
    if l.endDate == now.today {
      if l.endTime == m.endTime {
        assert l.endTime[3..] == m.endTime[3..];
        assert now.minute / 10 == 0 && now.minute % 10 == 0;
      }
    } else {
      assert l.endTime != m.endTime by { assert l.endTime[3] != m.endTime[3]; }
    }
  }

  // ----- /history -----

  /** `/history?start=<SD ST:00>&end=<ED ET:00>`, each value one date-and-time text. */
  function LegacyHistoryRequest(startDate: Option<Day>, startTime: string, endDate: Option<Day>, endTime: string): Request {
    Request("/history", [("start", DateTimeValue(startDate, startTime + ":00")), ("end", DateTimeValue(endDate, endTime + ":00"))])
  }

  /** The two legacy parameters carry the four form values, the times with `:00` appended. */
  lemma HistoryRequestRoundTrip(sd: Option<Day>, st: string, ed: Option<Day>, et: string)
    ensures var r := LegacyHistoryRequest(sd, st, ed, et);
            Param(r, "start") == Some(DateTimeValue(sd, st + ":00")) && Param(r, "end") == Some(DateTimeValue(ed, et + ":00"))
            && Param(r, "startDate").None? && Param(r, "endDate").None?
  {
    var q := LegacyHistoryRequest(sd, st, ed, et).query;
    assert "end" != "start";
    assert ParamIn(q, "end") == ParamIn(q[1..], "end");
    assert q[0].0 != "startDate" && q[1].0 != "startDate";
    assert q[0].0 != "endDate" && q[1].0 != "endDate";
  }

  /** The legacy filter form: date inputs and free time inputs (no option list). */
  class LegacyForm {
    var startDate: Option<Day>
    var endDate: Option<Day>
    var startTime: string
    var endTime: string
    var dateMin: Option<Day>
    var dateMax: Option<Day>
    var datesDisabled: bool

    constructor()
      ensures startDate == None && endDate == None && startTime == "" && endTime == ""
      ensures dateMin == None && dateMax == None && !datesDisabled
    {
      startDate, endDate, startTime, endTime := None, None, "", "";
      dateMin, dateMax, datesDisabled := None, None, false;
    }
  }

  /** The module state of the legacy script. */
  class Dashboard {
    var cache: seq<Reading>
    var minDate: Option<Day>
    var maxDate: Option<Day>
    const form: LegacyForm
    const panel: ChartPanel

    ghost predicate Valid()
      reads this, panel
    {
      panel.Valid()
    }

    constructor(form: LegacyForm, panel: ChartPanel)
      requires panel.Valid()
      ensures Valid() && this.form == form && this.panel == panel
      ensures cache == [] && minDate == None && maxDate == None
    {
      this.form, this.panel := form, panel;
      cache, minDate, maxDate := [], None, None;
    }

    /** The legacy `fetchAndSetDateLimits()`: with both limits, keep their date parts and put
        them on the date inputs; with a limit missing, only disable the inputs; a failure
        changes nothing. The limits are never cleared and the inputs never re-enabled. */
    method FetchAndSetDateLimits(outcome: LimitsOutcome)
      modifies this`minDate, this`maxDate, form`dateMin, form`dateMax, form`datesDisabled
      ensures outcome.LimitsFetched? && outcome.minDate.Some? && outcome.maxDate.Some? ==>
                minDate == Some(outcome.minDate.value.date) && maxDate == Some(outcome.maxDate.value.date)
                && form.dateMin == minDate && form.dateMax == maxDate && form.datesDisabled == old(form.datesDisabled)
      ensures outcome.LimitsFetched? && !(outcome.minDate.Some? && outcome.maxDate.Some?) ==>
                minDate == old(minDate) && maxDate == old(maxDate) && form.datesDisabled
                && form.dateMin == old(form.dateMin) && form.dateMax == old(form.dateMax)
      ensures outcome.LimitsFailed? ==>
                minDate == old(minDate) && maxDate == old(maxDate) && form.datesDisabled == old(form.datesDisabled)
                && form.dateMin == old(form.dateMin) && form.dateMax == old(form.dateMax)
    {
      match outcome {
        case LimitsFetched(lo, hi) =>
          if lo.Some? && hi.Some? {
            maxDate := Some(hi.value.date);
            minDate := Some(lo.value.date);
            form.dateMin, form.dateMax := minDate, maxDate;
          } else {
            form.datesDisabled := true;
          }
        case LimitsFailed =>
      }
    }

    /** The legacy `setInitialFilterTimes()`. */
    method SetInitialFilterTimes(now: Clock)
      requires now.minute < 60
      modifies form`startDate, form`endDate, form`startTime, form`endTime
      ensures var w := LegacyWindow(minDate, maxDate, now);
              form.startDate == Some(w.startDate) && form.endDate == Some(w.endDate)
              && form.startTime == w.startTime && form.endTime == w.endTime
    {
      var w := LegacyWindow(minDate, maxDate, now);
      form.startDate := Some(w.startDate);
      form.startTime := "00:00";
      form.endDate := Some(w.endDate);
      form.endTime := w.endTime;
    }

    /** The part of `fetchAndDrawHistory` after the response arrives: replace the cache (or
        empty it on failure) and show the requested view. */
    method CompleteHistoryFetch(overrideView: Option<View>, outcome: HistoryOutcome)
      requires Valid()
      modifies this`cache, panel
      ensures Valid()
      ensures var view := overrideView.GetOr(GeneralView);
              cache == (if outcome.HistoryFetched? then outcome.records else [])
              && (forall c :: panel.HandleOf(c) == Expected(c, view, view in panel.containers, cache))
              && panel.visible == (if view in panel.containers then {view} else {})
              && (forall v :: v in panel.containers ==>
                    panel.content[v] == (if v != view then Blank
                                         else if |cache| == 0 then NoDataMessage
                                         else Canvases(CanvasesOf(v))))
              && panel.title == (if view !in panel.containers then old(panel.title)
                                 else "📈 " + if outcome.HistoryFetched? then TitleOf(view) else TitleOf(GeneralView))
    {
      var view := overrideView.GetOr(GeneralView);
      match outcome {
        case HistoryFetched(records) =>
          cache := records;
          var _ := panel.ShowHistoryChart(view, TitleOf(view), cache);
        case HistoryFailed =>
          cache := [];
          var _ := panel.ShowHistoryChart(view, TitleOf(GeneralView), cache);
      }
    }

    /** The legacy `fetchAndDrawHistory(useFilters, overrideChartId)`: the same guard as the
        modular one, then the space-joined request. */
    method FetchAndDrawHistory(useFilters: bool, overrideView: Option<View>, outcome: HistoryOutcome)
      returns (request: Option<Request>)
      requires Valid()
      modifies this`cache, panel
      ensures Valid()
      ensures request.None? <==> useFilters && (form.startDate.None? || form.endDate.None?)
      ensures request.None? ==> cache == old(cache) && unchanged(panel)
      ensures request.Some? ==>
                request == Some(LegacyHistoryRequest(form.startDate, form.startTime, form.endDate, form.endTime))
                && cache == (if outcome.HistoryFetched? then outcome.records else [])
                && var view := overrideView.GetOr(GeneralView);
                   forall c :: panel.HandleOf(c) == Expected(c, view, view in panel.containers, cache)
    {
      if useFilters && (form.startDate.None? || form.endDate.None?) {
        return None;
      }
      request := Some(LegacyHistoryRequest(form.startDate, form.startTime, form.endDate, form.endTime));
      CompleteHistoryFetch(overrideView, outcome);
    }

    /** The click handler of a metric card: with a cached history, or for the general card,
        redraw at once without a request. Otherwise an unfiltered request goes out, the view is
        drawn at once from the still-empty cache, and redrawn when the response arrives. */
    method CardClick(target: View, outcome: HistoryOutcome) returns (request: Option<Request>)
      requires Valid()
      modifies this`cache, panel
      ensures Valid()
      ensures request.None? <==> |old(cache)| > 0 || target == GeneralView
      ensures request.None? ==>
                cache == old(cache)
                && (forall c :: panel.HandleOf(c) == Expected(c, target, target in panel.containers, cache))
                && panel.title == (if target in panel.containers then "📈 " + TitleOf(target) else old(panel.title))
      ensures request.Some? ==>
                request == Some(LegacyHistoryRequest(form.startDate, form.startTime, form.endDate, form.endTime))
                && cache == (if outcome.HistoryFetched? then outcome.records else [])
                && forall c :: panel.HandleOf(c) == Expected(c, target, target in panel.containers, cache)
    {
      if |cache| > 0 || target == GeneralView {
        var _ := panel.ShowHistoryChart(target, TitleOf(target), cache);
        return None;
      }
      request := Some(LegacyHistoryRequest(form.startDate, form.startTime, form.endDate, form.endTime));
      var _ := panel.ShowHistoryChart(target, TitleOf(target), cache);
      CompleteHistoryFetch(Some(target), outcome);
    }

    /** The legacy reset handler: reset the form, write the default window, fetch with filters.
        The fetch always goes out, with the default dates and times. */
    method ResetFilters(now: Clock, outcome: HistoryOutcome) returns (request: Option<Request>)
      requires Valid() && now.minute < 60
      modifies this`cache, panel, form`startDate, form`endDate, form`startTime, form`endTime
      ensures Valid()
      ensures var w := LegacyWindow(minDate, maxDate, now);
              request == Some(LegacyHistoryRequest(Some(w.startDate), w.startTime, Some(w.endDate), w.endTime))
      ensures cache == if outcome.HistoryFetched? then outcome.records else []
    {
      form.startDate, form.endDate, form.startTime, form.endTime := None, None, "", "";
      SetInitialFilterTimes(now);
      request := FetchAndDrawHistory(true, None, outcome);
    }
  }
}
