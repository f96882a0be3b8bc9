/** The dashboard's client of the server: the classification of the `/latest` response,
    the date limits from `/data-limits`, and the history request with its cache. */
module Api {
  import opened Telemetry
  import HiveStatus
  import opened Charts
  import opened Filters

  // ----- /latest -----

  /** The JSON body of a successful `/latest` response. */
  datatype LatestBody = NullBody | EmptyObject | RecordBody(reading: Reading)

  /** What `fetch('/latest')` gives: a non-ok status, a failure (network or body parsing),
      or a parsed body. */
  datatype LatestOutcome = HttpError(status: int) | RequestFailed | Received(body: LatestBody)

  /** The metric cards: placeholders (`-- g`, …) or the values of a reading. */
  datatype Cards = Placeholders | ShowReading(reading: Reading)

  /** The effect of one `updateLatestData()`: the cards (None when they are left as they
      were) and the status evaluation it triggers. */
  datatype LatestView = LatestView(cards: Option<Cards>, evaluation: HiveStatus.Evaluation)

  /** `updateLatestData()`: a failure or non-ok status evaluates with an error, an empty or
      null body with no data, and a record with that record. */
  function UpdateLatestData(o: LatestOutcome): (v: LatestView)
    ensures o.Received? && o.body.RecordBody? ==>
              v.cards == Some(ShowReading(o.body.reading))
              && v.evaluation == HiveStatus.Evaluate(Some(o.body.reading), false)
    ensures o.Received? && !o.body.RecordBody? ==>
              v.cards == Some(Placeholders) && v.evaluation == HiveStatus.Evaluate(None, false)
    ensures !o.Received? ==> v.cards.None? && v.evaluation == HiveStatus.Evaluate(None, true)
  {
    match o
    case Received(RecordBody(r)) => LatestView(Some(ShowReading(r)), HiveStatus.Evaluate(Some(r), false))
    case Received(_) => LatestView(Some(Placeholders), HiveStatus.Evaluate(None, false))
    case _ => LatestView(None, HiveStatus.Evaluate(None, true))
  }

  /** Every outcome without a record — failure, non-ok status, null or empty body — shows
      `danger` with the single connection-failure alert; a record is evaluated on its own. */
  lemma LatestWithoutRecordIsDanger(o: LatestOutcome)
    ensures var e := UpdateLatestData(o).evaluation;
            (o.Received? && o.body.RecordBody?) || (e.status == Danger && e.alerts == [Alert(Danger, HiveStatus.ConnectionFailure)])
  {
    if !(o.Received? && o.body.RecordBody?) {
      HiveStatus.ConnectionFailureShortCircuits(None, !o.Received?);
    }
  }

  // ----- /data-limits -----

  /** An ISO-8601 instant as `toISOString()` writes it: `<date>T<time>`. */
  datatype IsoInstant = IsoInstant(date: Day, time: string)

  /** What `fetch('/data-limits')` gives: a failure, or the two limits, each of which may be
      null, missing or empty. */
  datatype LimitsOutcome = LimitsFailed | LimitsFetched(minDate: Option<IsoInstant>, maxDate: Option<IsoInstant>)

  /** `s.split('T')[0]`: the text before the first 'T'. */
  function DatePrefix(s: string): (p: string)
    ensures |p| <= |s| && p == s[..|p|] && 'T' !in p
    ensures |p| < |s| ==> s[|p|] == 'T'
  {
    if s == [] || s[0] == 'T' then [] else [s[0]] + DatePrefix(s[1..])
  }

  /** Splitting `date + "T" + time` at its first 'T' gives back the date text. */
  lemma {:induction false} DatePrefixOfInstant(date: string, time: string)
    requires 'T' !in date
    ensures DatePrefix(date + "T" + time) == date
  {
    if date != [] {
      assert (date + "T" + time)[1..] == date[1..] + "T" + time;
      DatePrefixOfInstant(date[1..], time);
    }
  }

  // ----- /history -----

  /** A query parameter value: a date input's value (None for ''), a text, or the legacy
      date-and-time text `<date> <time>`. */
  datatype QueryValue = DateValue(date: Option<Day>) | TextValue(text: string) | DateTimeValue(date: Option<Day>, time: string)

  datatype Request = Request(path: string, query: seq<(string, QueryValue)>)

  /** The value of the first query parameter with this name. */
  function Param(r: Request, name: string): Option<QueryValue> {
    ParamIn(r.query, name)
  }

  function ParamIn(q: seq<(string, QueryValue)>, name: string): (v: Option<QueryValue>)
    ensures v.Some? <==> exists i :: 0 <= i < |q| && q[i].0 == name
    ensures v.Some? ==> exists i :: 0 <= i < |q| && q[i] == (name, v.value) && forall j :: 0 <= j < i ==> q[j].0 != name
  {
    if q == [] then None
    else if q[0].0 == name then Some(q[0].1)
    else
      var rest := ParamIn(q[1..], name);
      assert (exists i :: 0 <= i < |q[1..]| && q[1..][i].0 == name) <==> (exists i :: 1 <= i < |q| && q[i].0 == name) by {
        forall i | 1 <= i < |q| ensures q[1..][i - 1] == q[i] { }
      }
      assert rest.Some? ==> exists i :: 0 <= i < |q| && q[i] == (name, rest.value) && forall j :: 0 <= j < i ==> q[j].0 != name by {
        if rest.Some? {
          var k :| 0 <= k < |q[1..]| && q[1..][k] == (name, rest.value) && forall j :: 0 <= j < k ==> q[1..][j].0 != name;
          assert q[k + 1] == (name, rest.value);
          forall j | 0 <= j < k + 1 ensures q[j].0 != name {
            if j > 0 { assert q[j] == q[1..][j - 1]; }
          }
        }
      }
      rest
  }

  /** `/history?startDate=SD&endDate=ED&startTime=ST:00&endTime=ET:00`. */
  function HistoryRequest(startDate: Option<Day>, endDate: Option<Day>, startTime: string, endTime: string): Request {
    Request("/history", [("startDate", DateValue(startDate)), ("endDate", DateValue(endDate)),
                         ("startTime", TextValue(startTime + ":00")), ("endTime", TextValue(endTime + ":00"))])
  }

  /** The server reads the form's values back from the request: the dates as given, the
      times with the seconds `:00` appended and nothing else changed. */
  lemma HistoryRequestRoundTrip(sd: Option<Day>, ed: Option<Day>, st: string, et: string)
    ensures var r := HistoryRequest(sd, ed, st, et);
            r.path == "/history"
            && Param(r, "startDate") == Some(DateValue(sd)) && Param(r, "endDate") == Some(DateValue(ed))
            && Param(r, "startTime") == Some(TextValue(st + ":00")) && Param(r, "endTime") == Some(TextValue(et + ":00"))
            && var s, e := st + ":00", et + ":00";
               s[..|s| - 3] == st && s[|s| - 3..] == ":00" && e[..|e| - 3] == et && e[|e| - 3..] == ":00"
  {
    var q := HistoryRequest(sd, ed, st, et).query;
    assert "startDate"[5] != "startTime"[5];
    assert "endDate" != "startDate" && "endTime" != "startDate" && "startTime" != "startDate";
    assert "endTime" != "endDate" && "startTime" != "endDate";
    assert "endTime" != "startTime";
    assert ParamIn(q, "endDate") == ParamIn(q[1..], "endDate");
    assert ParamIn(q, "startTime") == ParamIn(q[1..], "startTime") == ParamIn(q[2..], "startTime") by {
      assert q[1..][1..] == q[2..];
    }
    assert ParamIn(q, "endTime") == ParamIn(q[1..], "endTime") == ParamIn(q[2..], "endTime") == ParamIn(q[3..], "endTime") by {
      assert q[1..][1..] == q[2..];
      assert q[2..][1..] == q[3..];
    }
  }

  /** What `fetch(url)` followed by `response.json()` gives for the history. */
  datatype HistoryOutcome = HistoryFailed | HistoryFetched(records: seq<Reading>)

  /** The chart title of each view. */
  function TitleOf(v: View): string {
    match v
    case GeneralView => "Histórico General"
    case WeightView => "Histórico de Peso (g)"
    case TemperatureView => "Histórico de Temperatura (°C)"
    case HumidityView => "Histórico de Humedad (%)"
    case AudioView => "Histórico de Ruido (0-4095)"
  }

  /** The filtered fetch refuses to run while either date input is empty. */
  predicate MissingDates(useFilters: bool, form: FilterForm)
    reads form
  {
    useFilters && (form.startDate.None? || form.endDate.None?)
  }

  /** The fetch reads the value of both hour selects before anything else, so on a page
      without one of them it stops with an error before any request. */
  predicate MissingSelect(form: FilterForm) {
    !form.startSelectPresent || !form.endSelectPresent
  }

  /** Whether `fetchAndDrawHistory(useFilters, …)` stops before sending a request. */
  predicate Refused(useFilters: bool, form: FilterForm)
    reads form
  {
    MissingSelect(form) || MissingDates(useFilters, form)
  }

  /** The module state of the client: the cached history, the two date limits (None for ''),
      the filter form and the chart panel it draws into. */
  class HistoryClient {
    var cache: seq<Reading>
    var minDate: Option<Day>
    var maxDate: Option<Day>
    const form: FilterForm
    const panel: ChartPanel

    ghost predicate Valid()
      reads this, form, panel
    {
      form.Valid() && panel.Valid()
    }

    /** The page as loaded: empty cache and no limits. */
    constructor(form: FilterForm, panel: ChartPanel)
      requires form.Valid() && panel.Valid()
      ensures Valid() && this.form == form && this.panel == panel
      ensures cache == [] && minDate == None && maxDate == None
    {
      this.form, this.panel := form, panel;
      cache, minDate, maxDate := [], None, None;
    }

    /** `fetchAndSetDateLimits()`: keep the date part of both limits and put them on the date
        inputs, enabling them; when either limit is missing or the request fails, disable the
        inputs and clear both limits. */
    method FetchAndSetDateLimits(outcome: LimitsOutcome)
      requires Valid()
      modifies this`minDate, this`maxDate, form`dateMin, form`dateMax, form`datesDisabled
      ensures Valid()
      ensures if outcome.LimitsFetched? && outcome.minDate.Some? && outcome.maxDate.Some?
              then minDate == Some(outcome.minDate.value.date) && maxDate == Some(outcome.maxDate.value.date)
                   && form.dateMin == minDate && form.dateMax == maxDate && !form.datesDisabled
              else minDate == None && maxDate == None && form.datesDisabled
                   && form.dateMin == old(form.dateMin) && form.dateMax == old(form.dateMax)
    {
      if outcome.LimitsFetched? && outcome.minDate.Some? && outcome.maxDate.Some? {
        minDate := Some(outcome.minDate.value.date);
        maxDate := Some(outcome.maxDate.value.date);
        form.dateMin, form.dateMax := minDate, maxDate;
        form.datesDisabled := false;
      } else {
        form.datesDisabled := true;
        minDate, maxDate := None, None;
      }
    }

    /** `fetchAndDrawHistory(useFilters, overrideChartId)`: on a page without both hour selects
        the read of their values fails, and with filters on and a date missing the fetch is
        refused; either way nothing is requested or changed. Otherwise the history is requested; a success replaces
        the cache wholesale and shows the requested view (the general one by default) under its
        title, a failure empties the cache and shows that view under the general title. */
    method FetchAndDrawHistory(useFilters: bool, overrideView: Option<View>, outcome: HistoryOutcome)
      returns (request: Option<Request>)
      requires Valid()
      modifies this`cache, panel
      ensures Valid()
      ensures request.None? <==> old(Refused(useFilters, form))
      ensures old(Refused(useFilters, form)) ==>
                cache == old(cache) && unchanged(panel)
      ensures !old(Refused(useFilters, form)) ==>
                var view := overrideView.GetOr(GeneralView);
                request == Some(HistoryRequest(form.startDate, form.endDate, form.startTime, form.endTime))
                && cache == (if outcome.HistoryFetched? then outcome.records else [])
                && (forall c :: panel.HandleOf(c) == Expected(c, view, view in panel.containers, cache))
                && panel.visible == (if view in panel.containers then {view} else {})
                && (forall v :: v in panel.containers ==>
                      panel.content[v] == (if v != view then Blank
                                           else if |cache| == 0 then NoDataMessage
                                           else Canvases(CanvasesOf(v))))
                && panel.title == (if view !in panel.containers then old(panel.title)
                                   else "📈 " + if outcome.HistoryFetched? then TitleOf(view) else TitleOf(GeneralView))
    {
      if !form.startSelectPresent || !form.endSelectPresent {
        return None;
      }
      if MissingDates(useFilters, form) {
        return None;
      }
      request := Some(HistoryRequest(form.startDate, form.endDate, form.startTime, form.endTime));
      var view := overrideView.GetOr(GeneralView);
      match outcome {
        case HistoryFetched(records) =>
          cache := records;
          var _ := panel.ShowHistoryChart(view, TitleOf(view), cache);
        case HistoryFailed =>
          cache := [];
          var _ := panel.ShowHistoryChart(view, TitleOf(GeneralView), cache);
      }
    }
  }

  /** A failed history request always leaves the view empty: no chart handle is live. */
  lemma FailedFetchDrawsNothing(view: View, present: bool, c: Canvas)
    ensures Expected(c, view, present, []).None?
  {
  }
}
