/** The history chart area: the series derived from the cached history, and the
    panel that tears down every chart handle and draws the ones of the selected view. */
module Charts {
  import opened Telemetry

  /** An x-axis label: the locale text of a reading's timestamp, kept abstract. */
  datatype Label = Label(timestamp: int)

  /** The labels and the four metric series drawn from one history. */
  datatype ChartData = ChartData(
    labels: seq<Label>,
    weights: seq<Option<real>>,
    temperatures: seq<Option<real>>,
    humidities: seq<Option<real>>,
    audios: seq<Option<real>>)

  /** `data.map(d => d[m] ?? null)`: one point per reading, a missing value kept as null. */
  function Series(data: seq<Reading>, m: Metric): (s: seq<Option<real>>)
    ensures |s| == |data|
  {
    if data == [] then [] else [Value(data[0], m)] + Series(data[1..], m)
  }

  function Labels(data: seq<Reading>): (s: seq<Label>)
    ensures |s| == |data|
  {
    if data == [] then [] else [Label(data[0].timestamp)] + Labels(data[1..])
  }

  /** `prepareChartData(data)`. */
  function PrepareChartData(data: seq<Reading>): (cd: ChartData)
    ensures |cd.labels| == |cd.weights| == |cd.temperatures| == |cd.humidities| == |cd.audios| == |data|
  {
    ChartData(Labels(data), Series(data, Weight), Series(data, Temperature), Series(data, Humidity), Series(data, Audio))
  }

  function SeriesOf(cd: ChartData, m: Metric): seq<Option<real>> {
    match m
    case Weight => cd.weights
    case Temperature => cd.temperatures
    case Humidity => cd.humidities
    case Audio => cd.audios
  }

  /** Each series point is the reading's value at the same position: null exactly where it is missing. */
  lemma {:induction false} SeriesAt(data: seq<Reading>, m: Metric, i: nat)
    requires i < |data|
    ensures Series(data, m)[i] == Value(data[i], m)
  {
    if i > 0 {
      SeriesAt(data[1..], m, i - 1);
    }
  }

  lemma {:induction false} LabelsAt(data: seq<Reading>, i: nat)
    requires i < |data|
    ensures Labels(data)[i] == Label(data[i].timestamp)
  {
    if i > 0 {
      LabelsAt(data[1..], i - 1);
    }
  }

  /** The chart data loses nothing: zipping its labels and series back together gives the history. */
  lemma ChartDataRoundTrip(data: seq<Reading>)
    ensures var cd := PrepareChartData(data);
            forall i :: 0 <= i < |data| ==>
              Reading(cd.labels[i].timestamp, cd.weights[i], cd.temperatures[i], cd.humidities[i], cd.audios[i]) == data[i]
  {
    forall i | 0 <= i < |data|
      ensures var cd := PrepareChartData(data);
              Reading(cd.labels[i].timestamp, cd.weights[i], cd.temperatures[i], cd.humidities[i], cd.audios[i]) == data[i]
    {
      LabelsAt(data, i);
      SeriesAt(data, Weight, i);
      SeriesAt(data, Temperature, i);
      SeriesAt(data, Humidity, i);
      SeriesAt(data, Audio, i);
    }
  }

  /** Deriving the series of two histories one after the other is deriving those of the joined history. */
  lemma {:induction false} SeriesAppend(a: seq<Reading>, b: seq<Reading>, m: Metric)
    ensures Series(a + b, m) == Series(a, m) + Series(b, m)
  {
    if a == [] {
      assert a + b == b;
    } else {
      assert (a + b)[1..] == a[1..] + b;
      SeriesAppend(a[1..], b, m);
    }
  }

  /** The five chart containers, one per card. */
  datatype View = GeneralView | WeightView | TemperatureView | HumidityView | AudioView

  /** The eight canvases a chart can be drawn on. */
  datatype Canvas =
    | WeightCanvas               // weight-chart
    | TemperatureCanvas          // temp-individual-chart
    | HumidityCanvas             // hum-individual-chart
    | AudioCanvas                // audio-individual-chart
    | WeightGeneralCanvas
    | TemperatureGeneralCanvas
    | HumidityGeneralCanvas
    | AudioGeneralCanvas

  /** The canvases injected into a view's container, in drawing order. */
  function CanvasesOf(v: View): seq<Canvas> {
    match v
    case GeneralView => [WeightGeneralCanvas, TemperatureGeneralCanvas, HumidityGeneralCanvas, AudioGeneralCanvas]
    case WeightView => [WeightCanvas]
    case TemperatureView => [TemperatureCanvas]
    case HumidityView => [HumidityCanvas]
    case AudioView => [AudioCanvas]
  }

  /** The view whose container holds a canvas. */
  function ViewOf(c: Canvas): View {
    match c
    case WeightCanvas => WeightView
    case TemperatureCanvas => TemperatureView
    case HumidityCanvas => HumidityView
    case AudioCanvas => AudioView
    case _ => GeneralView
  }

  /** A view's container holds exactly the canvases of that view. */
  lemma CanvasesOfView(c: Canvas, v: View)
    ensures c in CanvasesOf(v) <==> ViewOf(c) == v
  {
  }

  function MetricOf(c: Canvas): Metric {
    match c
    case WeightCanvas => Weight
    case WeightGeneralCanvas => Weight
    case TemperatureCanvas => Temperature
    case TemperatureGeneralCanvas => Temperature
    case HumidityCanvas => Humidity
    case HumidityGeneralCanvas => Humidity
    case AudioCanvas => Audio
    case AudioGeneralCanvas => Audio
  }

  /** A live Chart.js line chart: where it is drawn, what it plots, and its fixed y-axis bounds. */
  datatype ChartHandle = ChartHandle(
    canvas: Canvas,
    labels: seq<Label>,
    points: seq<Option<real>>,
    yMin: Option<real>,
    yMax: Option<real>)

  /** `drawIndividualChart` for a canvas: only the humidity charts get the 0..100 bounds. */
  function Draw(c: Canvas, cd: ChartData): ChartHandle {
    var bounded := MetricOf(c) == Humidity;
    ChartHandle(c, cd.labels, SeriesOf(cd, MetricOf(c)),
                if bounded then Some(0.0) else None,
                if bounded then Some(100.0) else None)
  }

  /** What a container holds: nothing, the injected canvases, or the no-data paragraph. */
  datatype Content = Blank | Canvases(canvases: seq<Canvas>) | NoDataMessage

  /** The handle a canvas should hold after showing `target` over `cache`, when the
      target container exists (`present`). */
  function Expected(c: Canvas, target: View, present: bool, cache: seq<Reading>): Option<ChartHandle> {
    if present && |cache| > 0 && ViewOf(c) == target then Some(Draw(c, PrepareChartData(cache))) else None
  }

  /** The handles that were live, in the order they are destroyed. */
  function LiveOf(hs: seq<Option<ChartHandle>>): (live: seq<ChartHandle>)
    ensures |live| <= |hs|
  {
    if hs == [] then [] else LiveOf(hs[..|hs| - 1]) + (if hs[|hs| - 1].Some? then [hs[|hs| - 1].value] else [])
  }

  /** A handle is destroyed exactly when it was live. */
  lemma {:induction false} LiveOfMembers(hs: seq<Option<ChartHandle>>, h: ChartHandle)
    ensures h in LiveOf(hs) <==> Some(h) in hs
  {
    if hs != [] {
      var init := hs[..|hs| - 1];
      LiveOfMembers(init, h);
      assert hs == init + [hs[|hs| - 1]];
    }
  }

  const AllCanvases: seq<Canvas> := [WeightCanvas, TemperatureCanvas, HumidityCanvas, AudioCanvas,
                                     WeightGeneralCanvas, TemperatureGeneralCanvas, HumidityGeneralCanvas, AudioGeneralCanvas]

  /** The chart area of the page: the eight module-level handle variables, the chart
      containers present on the page, which of them is visible, what each holds, and the title. */
  class ChartPanel {
    var weightChart: Option<ChartHandle>
    var tempIndividualChart: Option<ChartHandle>
    var humIndividualChart: Option<ChartHandle>
    var audioIndividualChart: Option<ChartHandle>
    var weightGeneralChart: Option<ChartHandle>
    var tempGeneralChart: Option<ChartHandle>
    var humGeneralChart: Option<ChartHandle>
    var audioGeneralChart: Option<ChartHandle>
    /** The `.charts-block .chart-container` elements, in document order. */
    const containers: seq<View>
    var visible: set<View>
    var content: map<View, Content>
    var title: string

    ghost predicate Valid()
      reads this
    {
      (forall v :: v in visible ==> v in containers)
      && (forall v :: v in content <==> v in containers)
    }

    /** The handle variable of a canvas. */
    function HandleOf(c: Canvas): Option<ChartHandle>
      reads this`weightChart, this`tempIndividualChart, this`humIndividualChart, this`audioIndividualChart
      reads this`weightGeneralChart, this`tempGeneralChart, this`humGeneralChart, this`audioGeneralChart
    {
      match c
      case WeightCanvas => weightChart
      case TemperatureCanvas => tempIndividualChart
      case HumidityCanvas => humIndividualChart
      case AudioCanvas => audioIndividualChart
      case WeightGeneralCanvas => weightGeneralChart
      case TemperatureGeneralCanvas => tempGeneralChart
      case HumidityGeneralCanvas => humGeneralChart
      case AudioGeneralCanvas => audioGeneralChart
    }

    /** The eight handle variables in the order the teardown visits them. */
    function Handles(): (hs: seq<Option<ChartHandle>>)
      reads this`weightChart, this`tempIndividualChart, this`humIndividualChart, this`audioIndividualChart
      reads this`weightGeneralChart, this`tempGeneralChart, this`humGeneralChart, this`audioGeneralChart
      ensures |hs| == 8 && forall i :: 0 <= i < 8 ==> hs[i] == HandleOf(AllCanvases[i])
    {
      [weightChart, tempIndividualChart, humIndividualChart, audioIndividualChart,
       weightGeneralChart, tempGeneralChart, humGeneralChart, audioGeneralChart]
    }

    /** A page with the given chart containers, no chart drawn and none visible. */
    constructor(containers: seq<View>)
      ensures Valid()
      ensures this.containers == containers && visible == {} && title == ""
      ensures forall c :: HandleOf(c).None?
      ensures forall v :: v in containers ==> content[v] == Blank
    {
      this.containers := containers;
      weightChart, tempIndividualChart, humIndividualChart, audioIndividualChart := None, None, None, None;
      weightGeneralChart, tempGeneralChart, humGeneralChart, audioGeneralChart := None, None, None, None;
      visible := {};
      content := map v | v in containers :: Blank;
      title := "";
    }

    /** Step 1 of `showHistoryChart`: destroy every live chart, in the order the source lists
        the variables, then null all eight. Returns the handles destroyed. */
    method DestroyAll() returns (destroyed: seq<ChartHandle>)
      modifies this
      ensures destroyed == LiveOf(old(Handles()))
      ensures forall c :: HandleOf(c).None?
      ensures visible == old(visible) && content == old(content) && title == old(title)
    {
      var all := Handles();
      destroyed := [];
      var i := 0;
      while i < |all|
        invariant 0 <= i <= |all|
        invariant destroyed == LiveOf(all[..i])
      {
        assert all[..i + 1][..i] == all[..i];
        if all[i].Some? {
          destroyed := destroyed + [all[i].value];
        }
        i := i + 1;
      }
      assert all[..i] == all;
      weightChart, tempIndividualChart, humIndividualChart, audioIndividualChart := None, None, None, None;
      weightGeneralChart, tempGeneralChart, humGeneralChart, audioGeneralChart := None, None, None, None;
    }

    /** Step 2 of `showHistoryChart`: hide and empty every chart container. */
    method HideAll()
      requires Valid()
      modifies this
      ensures Valid()
      ensures visible == {}
      ensures forall v :: v in containers ==> content[v] == Blank
      ensures forall c :: HandleOf(c) == old(HandleOf(c))
      ensures title == old(title)
    {
      var shown, held := visible, content;
      var j := 0;
      while j < |containers|
        invariant 0 <= j <= |containers|
        invariant forall v :: v in shown ==> v in containers[j..]
        invariant forall v :: v in held <==> v in containers
        invariant forall k :: 0 <= k < j ==> held[containers[k]] == Blank
      {
        shown := shown - {containers[j]};
        held := held[containers[j] := Blank];
        j := j + 1;
      }
      visible, content := shown, held;
    }

    /** Step 4 of `showHistoryChart` over a non-empty cache: inject the target's canvases and
        draw one chart on each, assigning its handle variable. */
    method DrawView(target: View, cache: seq<Reading>)
      requires |cache| > 0
      requires forall c :: HandleOf(c).None?
      modifies this`weightChart, this`tempIndividualChart, this`humIndividualChart, this`audioIndividualChart
      modifies this`weightGeneralChart, this`tempGeneralChart, this`humGeneralChart, this`audioGeneralChart
      ensures forall c :: HandleOf(c) == Expected(c, target, true, cache)
    {
      assert HandleOf(WeightCanvas).None? && HandleOf(TemperatureCanvas).None?
          && HandleOf(HumidityCanvas).None? && HandleOf(AudioCanvas).None?;
      assert HandleOf(WeightGeneralCanvas).None? && HandleOf(TemperatureGeneralCanvas).None?
          && HandleOf(HumidityGeneralCanvas).None? && HandleOf(AudioGeneralCanvas).None?;
      var cd := PrepareChartData(cache);
      match target {
        case GeneralView =>
          weightGeneralChart := Some(Draw(WeightGeneralCanvas, cd));
          tempGeneralChart := Some(Draw(TemperatureGeneralCanvas, cd));
          humGeneralChart := Some(Draw(HumidityGeneralCanvas, cd));
          audioGeneralChart := Some(Draw(AudioGeneralCanvas, cd));
        case WeightView =>
          weightChart := Some(Draw(WeightCanvas, cd));
        case TemperatureView =>
          tempIndividualChart := Some(Draw(TemperatureCanvas, cd));
        case HumidityView =>
          humIndividualChart := Some(Draw(HumidityCanvas, cd));
        case AudioView =>
          audioIndividualChart := Some(Draw(AudioCanvas, cd));
      }
    }

    /** `showHistoryChart(containerId, title)`: destroy every live chart and null all eight
        variables, hide and empty every container, then — if the target container exists —
        show it, set the title, and draw the target's charts from the cache (or the no-data
        paragraph when the cache is empty). Returns the handles destroyed. */
    method ShowHistoryChart(target: View, titleText: string, cache: seq<Reading>) returns (destroyed: seq<ChartHandle>)
      requires Valid()
      modifies this
      ensures Valid()
      ensures destroyed == LiveOf(old(Handles()))
      ensures forall c :: HandleOf(c) == Expected(c, target, target in containers, cache)
      ensures visible == if target in containers then {target} else {}
      ensures forall v :: v in containers ==>
                content[v] == (if v != target then Blank
                               else if |cache| == 0 then NoDataMessage
                               else Canvases(CanvasesOf(v)))
      ensures title == if target in containers then "📈 " + titleText else old(title)
    {
      destroyed := DestroyAll();
      HideAll();

      // 3. Show the target, if it exists.
      if target !in containers {
        return;
      }
      visible := visible + {target};
      title := "📈 " + titleText;

      if |cache| > 0 {
        content := content[target := Canvases(CanvasesOf(target))];
        DrawView(target, cache);
      } else {
        content := content[target := NoDataMessage];
      }
    }
  }

  // ----- Properties of the view transition -----

  /** How many of the eight handles a view leaves live. */
  function LiveCount(target: View, present: bool, cache: seq<Reading>): nat {
    |LiveOf(ExpectedHandles(target, present, cache))|
  }

  /** The eight expected handles, in teardown order. */
  function ExpectedHandles(target: View, present: bool, cache: seq<Reading>): (hs: seq<Option<ChartHandle>>)
    ensures |hs| == 8 && forall i :: 0 <= i < 8 ==> hs[i] == Expected(AllCanvases[i], target, present, cache)
  {
    [Expected(WeightCanvas, target, present, cache), Expected(TemperatureCanvas, target, present, cache),
     Expected(HumidityCanvas, target, present, cache), Expected(AudioCanvas, target, present, cache),
     Expected(WeightGeneralCanvas, target, present, cache), Expected(TemperatureGeneralCanvas, target, present, cache),
     Expected(HumidityGeneralCanvas, target, present, cache), Expected(AudioGeneralCanvas, target, present, cache)]
  }

  /** Where a single-metric view's canvas sits in the teardown order. */
  function SlotOf(v: View): nat {
    match v
    case GeneralView => 4
    case WeightView => 0
    case TemperatureView => 1
    case HumidityView => 2
    case AudioView => 3
  }

  /** Four charts for the general view, one for a single-metric view, none when the
      cache is empty or the target container is missing. */
  lemma LiveCountByView(target: View, present: bool, cache: seq<Reading>)
    ensures LiveCount(target, present, cache) ==
              if !present || |cache| == 0 then 0
              else if target == GeneralView then 4
              else 1
  {
    var hs := ExpectedHandles(target, present, cache);
    var drawn := present && |cache| > 0;
    var k := 0;
    while k < 8
      invariant 0 <= k <= 8
      invariant |LiveOf(hs[..k])| ==
                  if !drawn then 0
                  else if target == GeneralView then (if k > 4 then k - 4 else 0)
                  else if k > SlotOf(target) then 1 else 0
    {
      LiveOfStep(hs, k);
      ExpectedSlot(target, present, cache, k);
      k := k + 1;
    }
    assert hs[..8] == hs;
  }

  /** One more variable visited adds one destroyed handle exactly when it is live. */
  lemma LiveOfStep(hs: seq<Option<ChartHandle>>, k: nat)
    requires k < |hs|
    ensures |LiveOf(hs[..k + 1])| == |LiveOf(hs[..k])| + (if hs[k].Some? then 1 else 0)
  {
    assert hs[..k + 1][..k] == hs[..k];
  }

  /** Which of the eight teardown slots a view draws into. */
  lemma ExpectedSlot(target: View, present: bool, cache: seq<Reading>, k: nat)
    requires k < 8
    ensures ExpectedHandles(target, present, cache)[k].Some? <==>
              present && |cache| > 0 && (if target == GeneralView then k >= 4 else k == SlotOf(target))
  {
  }

  /** Only the target view's canvases hold a handle: two views are never live at once. */
  lemma OnlyTargetLive(target: View, present: bool, cache: seq<Reading>, c: Canvas)
    ensures Expected(c, target, present, cache).Some? ==> c in CanvasesOf(target)
    ensures Expected(c, target, present, cache).Some? <==> present && |cache| > 0 && c in CanvasesOf(target)
  {
  }

  /** Every drawn chart plots the cached series of its own metric, against the cached labels,
      and only the humidity charts are bounded, to 0..100. */
  lemma DrawnChartsPlotCache(target: View, cache: seq<Reading>, c: Canvas)
    requires Expected(c, target, true, cache).Some?
    ensures var h := Expected(c, target, true, cache).value;
            h.canvas == c && h.points == Series(cache, MetricOf(c)) && h.labels == Labels(cache)
            && (h.yMin.Some? <==> MetricOf(c) == Humidity) && (h.yMax.Some? <==> MetricOf(c) == Humidity)
            && (MetricOf(c) == Humidity ==> h.yMin == Some(0.0) && h.yMax == Some(100.0))
  {
  }
}
