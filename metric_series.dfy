/** Assembly of the metrics chart (getMetricDataSeries and
    getDataSeriesForMetricsChart): up to five series for the timers with the
    greatest window totals, then one "other" series holding the rest of each
    point's total time, every value averaged per transaction and in seconds. */
module MetricSeries {
  import opened LongMaps
  import opened Timers
  import opened TopTimers

  /** The number of named timer series (topX). */
  const TopX: nat := 5

  const MicrosecondsPerSecond: real := 1000000.0

  /** A series is either one timer's or the "other" series (a null name). */
  datatype SeriesName = Named(timer: string) | Other

  datatype DataPoint = DataPoint(captureTime: int, value: real)

  datatype DataSeries = DataSeries(name: SeriesName, points: seq<DataPoint>)

  /** Micros accumulated over `count` transactions, as average seconds. */
  function AverageSeconds(micros: int, count: int): real
    requires count != 0
  {
    (micros as real / count as real) / MicrosecondsPerSecond
  }

  /** Points without transactions record no stacked timer time; the source
      would divide by zero for a named series at such a point. */
  ghost predicate ZeroCountHasNoTimers(points: seq<StackedPoint>)
  {
    forall i :: 0 <= i < |points| && points[i].aggregate.transactionCount == 0 ==>
      points[i].stackedTimers == map[]
  }

  /** The value of a named series at a point: 0 when the timer is absent there. */
  function NamedSeconds(p: StackedPoint, name: string): real
    requires name in p.stackedTimers ==> p.aggregate.transactionCount != 0
  {
    if name !in p.stackedTimers then 0.0
    else AverageSeconds(p.stackedTimers[name], p.aggregate.transactionCount)
  }

  /** The micros of a point that belong to none of the selected timers. */
  function OtherMicros(p: StackedPoint, names: seq<string>): int
  {
    p.aggregate.totalMicros - SumOver(p.stackedTimers, names)
  }

  /** The value of the "other" series at a point: 0 without transactions. */
  function OtherSeconds(p: StackedPoint, names: seq<string>): real
  {
    if p.aggregate.transactionCount == 0 then 0.0
    else AverageSeconds(OtherMicros(p, names), p.aggregate.transactionCount)
  }

  /** The points of the series of timer `name`, one per stacked point, in order. */
  function NamedPoints(points: seq<StackedPoint>, name: string): seq<DataPoint>
    requires ZeroCountHasNoTimers(points)
    decreases |points|
  {
    if points == [] then []
    else
      var p := points[|points| - 1];
      NamedPoints(points[..|points| - 1], name) + [DataPoint(p.aggregate.captureTime, NamedSeconds(p, name))]
  }

  /** The points of the "other" series, one per stacked point, in order. */
  function OtherPoints(points: seq<StackedPoint>, names: seq<string>): seq<DataPoint>
    decreases |points|
  {
    if points == [] then []
    else
      var p := points[|points| - 1];
      OtherPoints(points[..|points| - 1], names) + [DataPoint(p.aggregate.captureTime, OtherSeconds(p, names))]
  }

  /** The timer of every series in `series` ("" for the other series). */
  function SeriesTimers(series: seq<DataSeries>): (r: seq<string>)
    ensures |r| == |series|
    decreases |series|
  {
    if series == [] then []
    else
      var s := series[|series| - 1];
      SeriesTimers(series[..|series| - 1]) + [if s.name.Named? then s.name.timer else ""]
  }

  /** `series` is a metrics chart of `points`: named series for a top-TopX
      selection of the window's timers, in rank order, each with one point per
      stacked point, then the "other" series, last. */
  ghost predicate IsMetricSeries(points: seq<StackedPoint>, series: seq<DataSeries>)
    requires ZeroCountHasNoTimers(points)
  {
    && |series| >= 1
    && var names := SeriesTimers(series[..|series| - 1]);
    && IsGreatestOf(WindowTotals(points), names, TopX)
    && (forall j :: 0 <= j < |names| ==> series[j] == DataSeries(Named(names[j]), NamedPoints(points, names[j])))
    && series[|series| - 1] == DataSeries(Other, OtherPoints(points, names))
  }

  // ---------------------------------------------------------------------------
  // The series as the source builds them

  lemma SeriesTimersOf(names: seq<string>, series: seq<DataSeries>)
    requires |series| == |names|
    requires forall j :: 0 <= j < |names| ==> series[j].name == Named(names[j])
    ensures SeriesTimers(series) == names
    decreases |names|
  {
    if names != [] {
      SeriesTimersOf(names[..|names| - 1], series[..|series| - 1]);
    }
  }

  lemma ZeroCountPrefix(points: seq<StackedPoint>, i: nat)
    requires ZeroCountHasNoTimers(points) && i <= |points|
    ensures ZeroCountHasNoTimers(points[..i])
  {
    assert forall l :: 0 <= l < i ==> points[..i][l] == points[l];
  }

  lemma PointsNext(points: seq<StackedPoint>, i: nat, name: string, names: seq<string>)
    requires ZeroCountHasNoTimers(points) && i < |points|
    ensures ZeroCountHasNoTimers(points[..i]) && ZeroCountHasNoTimers(points[..i + 1])
    ensures NamedPoints(points[..i + 1], name)
         == NamedPoints(points[..i], name) + [DataPoint(points[i].aggregate.captureTime, NamedSeconds(points[i], name))]
    ensures OtherPoints(points[..i + 1], names)
         == OtherPoints(points[..i], names) + [DataPoint(points[i].aggregate.captureTime, OtherSeconds(points[i], names))]
  {
    ZeroCountPrefix(points, i);
    ZeroCountPrefix(points, i + 1);
    assert points[..i + 1][..i] == points[..i];
  }

  /** The inner loop of getMetricDataSeries for one stacked point: appends the
      point's value to every named series and returns what is left of the
      point's total micros once the named timers' micros are taken out. */
  method AddNamedValues(dataSeriesList: seq<DataSeries>, p: StackedPoint, ghost names: seq<string>)
    returns (updated: seq<DataSeries>, totalOtherMicros: int)
    requires |dataSeriesList| == |names|
    requires forall l :: 0 <= l < |names| ==> dataSeriesList[l].name == Named(names[l])
    requires p.aggregate.transactionCount == 0 ==> p.stackedTimers == map[]
    ensures |updated| == |names|
    ensures forall l :: 0 <= l < |names| ==>
      updated[l] == dataSeriesList[l].(points := dataSeriesList[l].points + [DataPoint(p.aggregate.captureTime, NamedSeconds(p, names[l]))])
    ensures totalOtherMicros == OtherMicros(p, names)
  {
    var aggregate := p.aggregate;
    var stackedTimers := p.stackedTimers;
    totalOtherMicros := aggregate.totalMicros;
    updated := dataSeriesList;
    for j := 0 to |updated|
      invariant |updated| == |names|
      invariant totalOtherMicros == aggregate.totalMicros - SumOver(stackedTimers, names[..j])
      invariant forall l :: 0 <= l < j ==>
        updated[l] == dataSeriesList[l].(points := dataSeriesList[l].points + [DataPoint(aggregate.captureTime, NamedSeconds(p, names[l]))])
      invariant forall l :: j <= l < |names| ==> updated[l] == dataSeriesList[l]
    {
      assert names[..j + 1][..j] == names[..j];
      var dataSeries := updated[j];
      var name := dataSeries.name.timer;
      if name !in stackedTimers {
        updated := updated[j := dataSeries.(points := dataSeries.points + [DataPoint(aggregate.captureTime, 0.0)])];
      } else {
        var value := AverageSeconds(stackedTimers[name], aggregate.transactionCount);
        updated := updated[j := dataSeries.(points := dataSeries.points + [DataPoint(aggregate.captureTime, value)])];
        totalOtherMicros := totalOtherMicros - stackedTimers[name];
      }
    }
    assert names[..|names|] == names;
  }

  /** Opens one empty series per selected timer, in rank order. */
  method OpenSeries(timerNames: seq<string>) returns (dataSeriesList: seq<DataSeries>)
    ensures |dataSeriesList| == |timerNames|
    ensures forall l :: 0 <= l < |timerNames| ==> dataSeriesList[l] == DataSeries(Named(timerNames[l]), [])
  {
    dataSeriesList := [];
    for j := 0 to |timerNames|
      invariant |dataSeriesList| == j
      invariant forall l :: 0 <= l < j ==> dataSeriesList[l] == DataSeries(Named(timerNames[l]), [])
    {
      dataSeriesList := dataSeriesList + [DataSeries(Named(timerNames[j]), [])];
    }
  }

  lemma MetricSeriesIntro(points: seq<StackedPoint>, names: seq<string>, named: seq<DataSeries>, other: DataSeries)
    requires ZeroCountHasNoTimers(points)
    requires IsGreatestOf(WindowTotals(points), names, TopX)
    requires |named| == |names|
    requires forall l :: 0 <= l < |names| ==> named[l] == DataSeries(Named(names[l]), NamedPoints(points, names[l]))
    requires other == DataSeries(Other, OtherPoints(points, names))
    ensures IsMetricSeries(points, named + [other])
  {
    var series := named + [other];
    assert series[..|series| - 1] == named;
    SeriesTimersOf(names, named);
  }

  /** getMetricDataSeries without the boundary and gap points of the chart
      helper: asks for TopX + 1 top names, opens a series for each of the first
      TopX, fills one point per stacked point into each, subtracting the named
      micros from the point's total for the "other" series, and appends the
      "other" series last. */
  method MetricDataSeries(points: seq<StackedPoint>) returns (series: seq<DataSeries>)
    requires ZeroCountHasNoTimers(points)
    ensures IsMetricSeries(points, series)
  {
    var timerNames := TopTimerNames(points, TopX + 1);
    var n := Min(|timerNames|, TopX);
    GreatestOfPrefix(WindowTotals(points), timerNames, TopX + 1, TopX);
    var names := timerNames[..n];
    var dataSeriesList := OpenSeries(names);
    var otherDataSeries := DataSeries(Other, []);
    for i := 0 to |points|
      invariant ZeroCountHasNoTimers(points[..i])
      invariant |dataSeriesList| == n
      invariant forall l :: 0 <= l < n ==>
        dataSeriesList[l] == DataSeries(Named(names[l]), NamedPoints(points[..i], names[l]))
      invariant otherDataSeries == DataSeries(Other, OtherPoints(points[..i], names))
    {
      var aggregate := points[i].aggregate;
      var totalOtherMicros;
      dataSeriesList, totalOtherMicros := AddNamedValues(dataSeriesList, points[i], names);
      if aggregate.transactionCount == 0 {
        otherDataSeries := otherDataSeries.(points := otherDataSeries.points + [DataPoint(aggregate.captureTime, 0.0)]);
      } else {
        var value := AverageSeconds(totalOtherMicros, aggregate.transactionCount);
        otherDataSeries := otherDataSeries.(points := otherDataSeries.points + [DataPoint(aggregate.captureTime, value)]);
      }
      forall l | 0 <= l < n
        ensures dataSeriesList[l] == DataSeries(Named(names[l]), NamedPoints(points[..i + 1], names[l]))
      {
        PointsNext(points, i, names[l], names);
      }
      PointsNext(points, i, "", names);
    }
    assert points[..|points|] == points;
    MetricSeriesIntro(points, names, dataSeriesList, otherDataSeries);
    series := dataSeriesList + [otherDataSeries];
  }

  // ---------------------------------------------------------------------------
  // The whole metrics chart of a window

  /** No timer hangs below a real root, so the point's stacked map is empty. */
  ghost predicate NoTopLevelTimers(syntheticRoot: Timer)
  {
    forall r :: r in syntheticRoot.nested ==> r.nested == []
  }

  /** The stacked point StackedPoint.create makes of each aggregate, in order. */
  function StackedPointsOf(aggregates: seq<Aggregate>): (r: seq<StackedPoint>)
    ensures |r| == |aggregates|
    decreases |aggregates|
  {
    if aggregates == [] then []
    else
      var a := aggregates[|aggregates| - 1];
      StackedPointsOf(aggregates[..|aggregates| - 1]) + [StackedPoint(a, StackedTimersOf(a.timers))]
  }

  lemma {:induction false} StackedPointsOfAt(aggregates: seq<Aggregate>, i: nat)
    requires i < |aggregates|
    ensures StackedPointsOf(aggregates)[i] == StackedPoint(aggregates[i], StackedTimersOf(aggregates[i].timers))
    decreases |aggregates|
  {
    if i < |aggregates| - 1 {
      StackedPointsOfAt(aggregates[..|aggregates| - 1], i);
    }
  }

  lemma {:induction false} NoTopLevelContributions(roots: seq<Timer>)
    requires forall r :: r in roots ==> r.nested == []
    ensures RootContributions(roots) == []
    decreases |roots|
  {
    if roots != [] {
      assert roots[|roots| - 1] in roots;
      NoTopLevelContributions(roots[..|roots| - 1]);
    }
  }

  /** A synthetic root whose real roots have no nested timers yields an empty
      stacked map. */
  lemma NoTopLevelTimersEmpty(syntheticRoot: Timer)
    requires NoTopLevelTimers(syntheticRoot)
    ensures StackedTimersOf(syntheticRoot) == map[]
  {
    NoTopLevelContributions(syntheticRoot.nested);
  }

  /** getDataSeriesForMetricsChart: no series at all for an empty window,
      otherwise the series of the aggregates' stacked points. */
  method MetricsChart(aggregates: seq<Aggregate>) returns (series: seq<DataSeries>)
    requires forall i :: 0 <= i < |aggregates| && aggregates[i].transactionCount == 0 ==>
      NoTopLevelTimers(aggregates[i].timers)
    ensures aggregates == [] ==> series == []
    ensures aggregates != [] ==>
      ZeroCountHasNoTimers(StackedPointsOf(aggregates)) && IsMetricSeries(StackedPointsOf(aggregates), series)
  {
    if aggregates == [] {
      return [];
    }
    var stackedPoints: seq<StackedPoint> := [];
    for i := 0 to |aggregates|
      invariant stackedPoints == StackedPointsOf(aggregates[..i])
    {
      var point := CreateStackedPoint(aggregates[i]);
      assert aggregates[..i + 1][..i] == aggregates[..i];
      stackedPoints := stackedPoints + [point];
    }
    assert aggregates[..|aggregates|] == aggregates;
    forall i | 0 <= i < |stackedPoints| && stackedPoints[i].aggregate.transactionCount == 0
      ensures stackedPoints[i].stackedTimers == map[]
    {
      StackedPointsOfAt(aggregates, i);
      NoTopLevelTimersEmpty(aggregates[i].timers);
    }
    series := MetricDataSeries(stackedPoints);
  }

  // ---------------------------------------------------------------------------
  // Properties of the chart

  /** Each named series has one point per stacked point, at that point's
      capture time, in input order. */
  lemma {:induction false} NamedPointsAt(points: seq<StackedPoint>, name: string, i: nat)
    requires ZeroCountHasNoTimers(points) && i < |points|
    ensures |NamedPoints(points, name)| == |points|
    ensures NamedPoints(points, name)[i]
         == DataPoint(points[i].aggregate.captureTime, NamedSeconds(points[i], name))
    decreases |points|
  {
    ZeroCountPrefix(points, |points| - 1);
    if i < |points| - 1 {
      NamedPointsAt(points[..|points| - 1], name, i);
    } else if |points| > 1 {
      NamedPointsAt(points[..|points| - 1], name, 0);
    } else {
      assert points[..0] == [];
    }
  }

  /** The "other" series has one point per stacked point, at that point's
      capture time, in input order. */
  lemma {:induction false} OtherPointsAt(points: seq<StackedPoint>, names: seq<string>, i: nat)
    requires i < |points|
    ensures |OtherPoints(points, names)| == |points|
    ensures OtherPoints(points, names)[i]
         == DataPoint(points[i].aggregate.captureTime, OtherSeconds(points[i], names))
    decreases |points|
  {
    if i < |points| - 1 {
      OtherPointsAt(points[..|points| - 1], names, i);
    } else if |points| > 1 {
      OtherPointsAt(points[..|points| - 1], names, 0);
    } else {
      assert points[..0] == [];
    }
  }

  /** The layout of a metrics chart: min(5, distinct timers) named series for
      distinct recorded timers, in non-increasing order of window total, then
      exactly one "other" series, last. */
  lemma MetricSeriesLayout(points: seq<StackedPoint>, series: seq<DataSeries>)
    requires ZeroCountHasNoTimers(points) && IsMetricSeries(points, series)
    ensures |series| == Min(TopX, |WindowNames(points)|) + 1
    ensures series[|series| - 1].name == Other
    ensures forall j :: 0 <= j < |series| - 1 ==>
      series[j].name.Named? && series[j].name.timer in WindowNames(points)
    ensures forall j, l :: 0 <= j < l < |series| - 1 ==>
      series[j].name != series[l].name
      && WindowTotal(points, series[j].name.timer) >= WindowTotal(points, series[l].name.timer)
  {
    GreatestOfWindow(points, SeriesTimers(series[..|series| - 1]), TopX);
  }

  /** Every series of a metrics chart, named or "other", has exactly one value
      per stacked point. */
  lemma MetricSeriesLengths(points: seq<StackedPoint>, series: seq<DataSeries>)
    requires ZeroCountHasNoTimers(points) && IsMetricSeries(points, series)
    ensures forall j :: 0 <= j < |series| ==> |series[j].points| == |points|
  {
    var names := SeriesTimers(series[..|series| - 1]);
    forall j | 0 <= j < |series|
      ensures |series[j].points| == |points|
    {
      if points != [] {
        if j < |series| - 1 {
          NamedPointsAt(points, names[j], 0);
        } else {
          OtherPointsAt(points, names, 0);
        }
      }
    }
  }

  /** The values of the named series at a point, summed. */
  function NamedSecondsSum(p: StackedPoint, names: seq<string>): real
    requires p.aggregate.transactionCount != 0
    decreases |names|
  {
    if names == [] then 0.0 else NamedSecondsSum(p, names[..|names| - 1]) + NamedSeconds(p, names[|names| - 1])
  }

  lemma AverageSecondsAdd(a: int, b: int, count: int)
    requires count != 0
    ensures AverageSeconds(a, count) + AverageSeconds(b, count) == AverageSeconds(a + b, count)
  {
    var c := count as real;
    assert a as real / c + b as real / c == (a + b) as real / c;
  }

  lemma {:induction false} NamedSecondsSumIsAverage(p: StackedPoint, names: seq<string>)
    requires p.aggregate.transactionCount != 0
    ensures NamedSecondsSum(p, names) == AverageSeconds(SumOver(p.stackedTimers, names), p.aggregate.transactionCount)
    decreases |names|
  {
    var count := p.aggregate.transactionCount;
    if names == [] {
      assert AverageSeconds(0, count) == 0.0;
    } else {
      var init, k := names[..|names| - 1], names[|names| - 1];
      NamedSecondsSumIsAverage(p, init);
      AverageSecondsAdd(SumOver(p.stackedTimers, init), GetOrZero(p.stackedTimers, k), count);
      if k !in p.stackedTimers {
        assert AverageSeconds(0, count) == 0.0;
      }
    }
  }

  /** The stacked chart adds up: at a point with transactions, the named
      values and the "other" value sum to the point's average total time in
      seconds, whichever timers are selected. */
  lemma StackedValuesAddUp(p: StackedPoint, names: seq<string>)
    requires p.aggregate.transactionCount != 0
    ensures NamedSecondsSum(p, names) + OtherSeconds(p, names)
         == AverageSeconds(p.aggregate.totalMicros, p.aggregate.transactionCount)
  {
    NamedSecondsSumIsAverage(p, names);
    AverageSecondsAdd(SumOver(p.stackedTimers, names), OtherMicros(p, names), p.aggregate.transactionCount);
  }

  /** When every timer recorded at a point is selected, the "other" series
      holds exactly the time not spent in any top-level timer, i.e. the time
      spent in the root timers themselves. */
  lemma OtherIsRootTime(p: StackedPoint, names: seq<string>)
    requires Distinct(names)
    requires forall k :: k in p.stackedTimers ==> k in names
    requires p.stackedTimers == StackedTimersOf(p.aggregate.timers)
    ensures OtherMicros(p, names) == p.aggregate.totalMicros - TopLevelMicros(p.aggregate.timers.nested)
  {
    SumOverAll(p.stackedTimers, names);
    StackedTimersConserve(p.aggregate.timers);
  }
}
