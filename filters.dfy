/** The history filter form: the 24-entry hour grid of the two time selects and the
    default date/time window written into the form. */
module Filters {
  import opened Telemetry

  /** How many days back the default window starts from its end date. */
  const DEFAULT_HISTORY_DAYS: int := 7

  function Digit(d: nat): char
    requires d < 10
  {
    (48 + d) as char
  }

  /** `h.toString().padStart(2, '0') + ':00'`. */
  function HourLabel(h: Hour): (s: string)
    ensures |s| == 5 && s[2..] == ":00"
  {
    [Digit(h / 10), Digit(h % 10), ':', '0', '0']
  }

  /** The option values of an hour select, in the order the loop appends them. */
  function HourGrid(): (g: seq<string>)
    ensures |g| == 24
  {
    seq(24, h requires 0 <= h < 24 => HourLabel(h))
  }

  predicate IsDigit(c: char) {
    '0' <= c <= '9'
  }

  /** Reads an `HH:00` option value back as an hour; None for anything else. */
  function ParseHour(s: string): Option<Hour> {
    if |s| == 5 && IsDigit(s[0]) && IsDigit(s[1]) && s[2..] == ":00"
       && (s[0] as int - 48) * 10 + (s[1] as int - 48) < 24
    then Some((s[0] as int - 48) * 10 + (s[1] as int - 48))
    else None
  }

  /** Every hour label parses back to its hour, and only hour labels parse. */
  lemma HourLabelRoundTrip(h: Hour, s: string)
    ensures ParseHour(HourLabel(h)) == Some(h)
    ensures ParseHour(s) == Some(h) ==> s == HourLabel(h)
  {
    var l := HourLabel(h);
    assert (l[0] as int - 48) * 10 + (l[1] as int - 48) == h;
    if ParseHour(s) == Some(h) {
      assert s[2..] == l[2..];
      assert s == [s[0], s[1]] + s[2..];
      assert l == [l[0], l[1]] + l[2..];
      var tens, ones := s[0] as int - 48, s[1] as int - 48;
      assert 0 <= ones < 10 && 0 <= tens;
      assert tens == h / 10 && ones == h % 10;
    }
  }

  /** String order as JavaScript compares strings of digits. */
  predicate LexLess(a: string, b: string) {
    if a == [] then b != []
    else if b == [] then false
    else a[0] < b[0] || (a[0] == b[0] && LexLess(a[1..], b[1..]))
  }

  /** The grid is zero-padded, so its textual order is the order of the hours. */
  lemma HourGridAscending(i: Hour, j: Hour)
    requires i < j
    ensures LexLess(HourGrid()[i], HourGrid()[j])
  {
    var a, b := HourLabel(i), HourLabel(j);
    if i / 10 == j / 10 {
      assert a[1..][0] < b[1..][0];
    }
  }

  /** The grid holds 24 distinct values from "00:00" to "23:00". */
  lemma HourGridShape()
    ensures HourGrid()[0] == "00:00" && HourGrid()[23] == "23:00"
    ensures forall i, j :: 0 <= i < j < 24 ==> HourGrid()[i] != HourGrid()[j]
  {
    forall i, j | 0 <= i < j < 24
      ensures HourGrid()[i] != HourGrid()[j]
    {
      HourLabelRoundTrip(i, HourGrid()[j]);
    }
  }

  /** The wall clock as the form reads it: today's (UTC) date and the local hour. */
  datatype Now = Now(today: Day, hour: Hour)

  /** The four values written into the filter form. */
  datatype Window = Window(startDate: Day, endDate: Day, startTime: string, endTime: string)

  /** The default window of `setInitialFilterTimes`: end at the last data date (today when
      there is none), start seven days earlier but not before the first data date, from
      midnight to the current hour on today's date or to the last hour otherwise. */
  function DefaultWindow(minDate: Option<Day>, maxDate: Option<Day>, now: Now): Window {
    var endDate := maxDate.GetOr(now.today);
    var sevenDaysAgo := endDate - DEFAULT_HISTORY_DAYS;
    var startDate := if minDate.Some? && sevenDaysAgo < minDate.value then minDate.value else sevenDaysAgo;
    Window(startDate, endDate, "00:00", if endDate == now.today then HourLabel(now.hour) else "23:00")
  }

  /** The window never starts before the first data date, spans at most seven days back from
      its end, and is non-empty whenever the first data date is not after its end. */
  lemma DefaultWindowBounds(minDate: Option<Day>, maxDate: Option<Day>, now: Now)
    ensures var w := DefaultWindow(minDate, maxDate, now);
            w.endDate == (if maxDate.Some? then maxDate.value else now.today)
            && (minDate.Some? ==> w.startDate >= minDate.value)
            && (w.startDate == w.endDate - DEFAULT_HISTORY_DAYS || (minDate.Some? && w.startDate == minDate.value))
            && w.startDate >= w.endDate - DEFAULT_HISTORY_DAYS
            && ((minDate.None? || minDate.value <= w.endDate) ==> w.startDate <= w.endDate)
  {
  }

  /** Both default times are values of the hour grid, so the selects can show them. */
  lemma DefaultTimesOnGrid(minDate: Option<Day>, maxDate: Option<Day>, now: Now)
    ensures var w := DefaultWindow(minDate, maxDate, now);
            w.startTime == HourGrid()[0] && w.startTime in HourGrid() && w.endTime in HourGrid()
            && (w.endDate == now.today ==> ParseHour(w.endTime) == Some(now.hour))
            && (w.endDate != now.today ==> w.endTime == HourGrid()[23])
  {
    var w := DefaultWindow(minDate, maxDate, now);
    assert HourGrid()[0] == "00:00";
    assert HourGrid()[23] == "23:00";
    if w.endDate == now.today {
      assert HourGrid()[now.hour] == w.endTime;
      HourLabelRoundTrip(now.hour, w.endTime);
    }
  }

  /** The value a `<select>` takes when assigned `v`: `v` if some option has it, '' otherwise. */
  function SelectValue(options: seq<string>, v: string): (r: string)
    ensures r in options || r == ""
    ensures r == v <==> v in options || v == ""
    ensures v !in options ==> r == ""
  {
    if v in options then v else ""
  }

  /** The filter form: two date inputs (always on the page), two hour selects (each may be
      missing), and the limits and disabled flag the date-limits request sets on the inputs. */
  class FilterForm {
    var startDate: Option<Day>
    var endDate: Option<Day>
    var startTime: string
    var endTime: string
    var startOptions: seq<string>
    var endOptions: seq<string>
    const startSelectPresent: bool
    const endSelectPresent: bool
    var dateMin: Option<Day>
    var dateMax: Option<Day>
    var datesDisabled: bool

    /** A select's value is one of its options, or '' when none is selected. */
    ghost predicate Valid()
      reads this
    {
      (startTime in startOptions || startTime == "") && (endTime in endOptions || endTime == "")
    }

    /** A freshly loaded form: empty dates and empty selects. */
    constructor(startSelectPresent: bool, endSelectPresent: bool)
      ensures Valid()
      ensures this.startSelectPresent == startSelectPresent && this.endSelectPresent == endSelectPresent
      ensures startDate == None && endDate == None && startOptions == [] && endOptions == []
      ensures dateMin == None && dateMax == None && !datesDisabled
    {
      this.startSelectPresent, this.endSelectPresent := startSelectPresent, endSelectPresent;
      startDate, endDate := None, None;
      startTime, endTime := "", "";
      startOptions, endOptions := [], [];
      dateMin, dateMax, datesDisabled := None, None, false;
    }

    /** `populateHourSelectors()`: when both selects exist, empty them and append the 24 hours;
        each then selects its first option. Otherwise nothing changes. */
    method PopulateHourSelectors()
      requires Valid()
      modifies this`startOptions, this`endOptions, this`startTime, this`endTime
      ensures Valid()
      ensures if startSelectPresent && endSelectPresent
              then startOptions == HourGrid() && endOptions == HourGrid()
                   && startTime == "00:00" && endTime == "00:00"
              else startOptions == old(startOptions) && endOptions == old(endOptions)
                   && startTime == old(startTime) && endTime == old(endTime)
    {
      if !startSelectPresent || !endSelectPresent {
        return;
      }
      var starts: seq<string> := [];
      var ends: seq<string> := [];
      var h := 0;
      while h < 24
        invariant 0 <= h <= 24
        invariant |starts| == h && |ends| == h
        invariant forall k :: 0 <= k < h ==> starts[k] == HourLabel(k) && ends[k] == HourLabel(k)
      {
        var value := HourLabel(h);
        starts := starts + [value];
        ends := ends + [value];
        h := h + 1;
      }
      startOptions, endOptions := starts, ends;
      startTime, endTime := startOptions[0], endOptions[0];
    }

    /** `setInitialFilterTimes()`: refill the hour selects, then write the default window into
        the form; a time the select has no option for leaves it with no selection. */
    method SetInitialFilterTimes(minDate: Option<Day>, maxDate: Option<Day>, now: Now)
      requires Valid()
      modifies this`startOptions, this`endOptions, this`startTime, this`endTime, this`startDate, this`endDate
      ensures Valid()
      ensures var w := DefaultWindow(minDate, maxDate, now);
              startDate == Some(w.startDate) && endDate == Some(w.endDate)
              && (startSelectPresent && endSelectPresent ==>
                    startTime == w.startTime && endTime == w.endTime
                    && startOptions == HourGrid() && endOptions == HourGrid())
              && (!(startSelectPresent && endSelectPresent) ==>
                    startOptions == old(startOptions) && endOptions == old(endOptions)
                    && startTime == (if startSelectPresent then SelectValue(startOptions, w.startTime) else old(startTime))
                    && endTime == (if endSelectPresent then SelectValue(endOptions, w.endTime) else old(endTime)))
    {
      PopulateHourSelectors();
      var w := DefaultWindow(minDate, maxDate, now);
      DefaultTimesOnGrid(minDate, maxDate, now);
      startDate := Some(w.startDate);
      if startSelectPresent {
        startTime := SelectValue(startOptions, w.startTime);
      }
      endDate := Some(w.endDate);
      if endSelectPresent {
        endTime := SelectValue(endOptions, w.endTime);
      }
    }

    /** `form.reset()`: the date inputs return to their (empty) default value and each
        select to its first option. */
    method Reset()
      requires Valid()
      modifies this`startDate, this`endDate, this`startTime, this`endTime
      ensures Valid()
      ensures startDate == None && endDate == None
      ensures startTime == (if startOptions == [] then "" else startOptions[0])
      ensures endTime == (if endOptions == [] then "" else endOptions[0])
    {
      startDate, endDate := None, None;
      startTime := if startOptions == [] then "" else startOptions[0];
      endTime := if endOptions == [] then "" else endOptions[0];
    }
  }
}
