/** The two handlers `setupFilterEvents` attaches to the filter form: search (submit) and
    reset. */
module FilterEvents {
  import opened Telemetry
  import opened Charts
  import opened Filters
  import opened Api

  /** The submit handler: a filtered history fetch, which goes out exactly when both hour
      selects exist and both date inputs hold a date, and then carries the form's values. */
  method Submit(client: HistoryClient, outcome: HistoryOutcome) returns (request: Option<Request>)
    requires client.Valid()
    modifies client`cache, client.panel
    ensures client.Valid()
    ensures request.Some? <==>
              client.form.startSelectPresent && client.form.endSelectPresent
              && client.form.startDate.Some? && client.form.endDate.Some?
    ensures request.Some? ==>
              request == Some(HistoryRequest(client.form.startDate, client.form.endDate, client.form.startTime, client.form.endTime))
              && client.cache == (if outcome.HistoryFetched? then outcome.records else [])
    ensures request.None? ==> client.cache == old(client.cache) && unchanged(client.panel)
  {
    request := client.FetchAndDrawHistory(true, None, outcome);
  }

  /** The reset handler: reset the form, write the default window into it, then fetch with
      filters. The fetch goes out exactly when both hour selects exist, and then carries the
      default window; without them the form is still reset but nothing is fetched or redrawn. */
  method ResetFilters(client: HistoryClient, now: Now, outcome: HistoryOutcome) returns (request: Option<Request>)
    requires client.Valid()
    modifies client`cache, client.panel
    modifies client.form`startOptions, client.form`endOptions, client.form`startTime, client.form`endTime
    modifies client.form`startDate, client.form`endDate
    ensures client.Valid()
    ensures var w := DefaultWindow(client.minDate, client.maxDate, now);
            client.form.startDate == Some(w.startDate) && client.form.endDate == Some(w.endDate)
    ensures request.Some? <==> client.form.startSelectPresent && client.form.endSelectPresent
    ensures request.Some? ==>
              var w := DefaultWindow(client.minDate, client.maxDate, now);
              request == Some(HistoryRequest(Some(w.startDate), Some(w.endDate), w.startTime, w.endTime))
              && client.cache == (if outcome.HistoryFetched? then outcome.records else [])
              && forall c :: client.panel.HandleOf(c) == Expected(c, GeneralView, GeneralView in client.panel.containers, client.cache)
    ensures request.None? ==> client.cache == old(client.cache) && unchanged(client.panel)
  {
    client.form.Reset();
    client.form.SetInitialFilterTimes(client.minDate, client.maxDate, now);
    request := client.FetchAndDrawHistory(true, None, outcome);
  }
}
