/** Timeline helpers for the statistics view: percentages, metric series, and
    the grouping of daily learning events into weekly or monthly periods.
    Calendar weeks and months are abstracted as period-key functions on
    timestamps. */
module Timeline {
  import opened Common

  datatype LearningEvent = LearningEvent(date: Time, flagsLearned: nat, flagsReviewed: nat, accuracy: real)

  datatype MetricType = Learned | Reviewed | Accuracy

  datatype Granularity = Daily | Weekly | Monthly

  datatype MetricPoint = MetricPoint(date: Time, value: real)

  /** calculatePercentage(value, total) */
  function CalculatePercentage(value: int, total: int): (p: real)
    ensures total == 0 ==> p == 0.0
    ensures total != 0 ==> p * total as real == value as real * 100.0
    ensures 0 <= value <= total ==> 0.0 <= p <= 100.0
  {
    if total == 0 then 0.0 else value as real / total as real * 100.0
  }

  /** The value one event contributes to a metric series. */
  function MetricValue(event: LearningEvent, metric: MetricType, normalize: bool, total: int): real {
    match metric
    case Learned => if normalize then CalculatePercentage(event.flagsLearned, total) else event.flagsLearned as real
    case Reviewed => if normalize then CalculatePercentage(event.flagsReviewed, total) else event.flagsReviewed as real
    case Accuracy => event.accuracy
  }

  /** getMetricData(data, metric, normalizeToPercentage, total): one point per
      event, same dates; accuracy is never normalised. */
  function GetMetricData(data: seq<LearningEvent>, metric: MetricType, normalize: bool, total: int): (points: seq<MetricPoint>)
    ensures |points| == |data|
    ensures forall i :: 0 <= i < |data| ==> points[i].date == data[i].date
    ensures metric == Accuracy ==> forall i :: 0 <= i < |data| ==> points[i].value == data[i].accuracy
    ensures !normalize && metric == Learned ==>
      forall i :: 0 <= i < |data| ==> points[i].value == data[i].flagsLearned as real
    ensures !normalize && metric == Reviewed ==>
      forall i :: 0 <= i < |data| ==> points[i].value == data[i].flagsReviewed as real
    ensures normalize && metric == Learned ==>
      forall i :: 0 <= i < |data| ==> points[i].value == CalculatePercentage(data[i].flagsLearned, total)
    ensures normalize && metric == Reviewed ==>
      forall i :: 0 <= i < |data| ==> points[i].value == CalculatePercentage(data[i].flagsReviewed, total)
  {
    seq(|data|, i requires 0 <= i < |data| => MetricPoint(data[i].date, MetricValue(data[i], metric, normalize, total)))
  }

  // ---------------------------------------------------------------------------
  // Sums over events.

  function SumLearned(events: seq<LearningEvent>): nat {
    if events == [] then 0 else SumLearned(events[..|events| - 1]) + events[|events| - 1].flagsLearned
  }

  function SumReviewed(events: seq<LearningEvent>): nat {
    if events == [] then 0 else SumReviewed(events[..|events| - 1]) + events[|events| - 1].flagsReviewed
  }

  /** The sum of accuracy weighted by reviews. */
  function SumWeighted(events: seq<LearningEvent>): real {
    if events == [] then 0.0
    else SumWeighted(events[..|events| - 1]) + events[|events| - 1].accuracy * events[|events| - 1].flagsReviewed as real
  }

  function SumAccuracy(events: seq<LearningEvent>): real {
    if events == [] then 0.0 else SumAccuracy(events[..|events| - 1]) + events[|events| - 1].accuracy
  }

  lemma {:induction false} SumsOfConcat(a: seq<LearningEvent>, b: seq<LearningEvent>)
    ensures SumLearned(a + b) == SumLearned(a) + SumLearned(b)
    ensures SumReviewed(a + b) == SumReviewed(a) + SumReviewed(b)
  {
    if b != [] {
      var init := b[..|b| - 1];
      assert (a + b)[..|a + b| - 1] == a + init;
      SumsOfConcat(a, init);
    } else {
      assert a + b == a;
    }
  }

  /** calculateAggregatedData(events, periodStart): one event for the period,
      dated at its start, with summed counts and the review-weighted mean
      accuracy (the plain mean when the period has no reviews). */
  function CalculateAggregatedData(events: seq<LearningEvent>, periodStart: Time): (r: LearningEvent)
    ensures r.date == periodStart
    ensures r.flagsLearned == SumLearned(events) && r.flagsReviewed == SumReviewed(events)
  {
    if events == [] then LearningEvent(periodStart, 0, 0, 0.0)
    else
      var learned := SumLearned(events);
      var reviewed := SumReviewed(events);
      var accuracy :=
        if reviewed > 0 then SumWeighted(events) / reviewed as real
        else SumAccuracy(events) / |events| as real;
      LearningEvent(periodStart, learned, reviewed, accuracy)
  }

  /** A period's accuracy is the review-weighted mean of its events'
      accuracies, or their plain mean when it has no reviews; an empty period
      has accuracy 0. */
  lemma AggregatedAccuracyIsMean(events: seq<LearningEvent>, periodStart: Time)
    ensures var r := CalculateAggregatedData(events, periodStart);
      && (events == [] ==> r.accuracy == 0.0)
      && (events != [] && SumReviewed(events) > 0 ==> r.accuracy * SumReviewed(events) as real == SumWeighted(events))
      && (events != [] && SumReviewed(events) == 0 ==> r.accuracy * |events| as real == SumAccuracy(events))
  {
  }

  /** Every event's accuracy lies in [lo, hi]. */
  predicate AccuracyWithin(events: seq<LearningEvent>, lo: real, hi: real) {
    forall i :: 0 <= i < |events| ==> lo <= events[i].accuracy <= hi
  }

  lemma ScaleBounds(x: real, lo: real, hi: real, w: real)
    requires lo <= x <= hi && 0.0 <= w
    ensures lo * w <= x * w <= hi * w
  {
    assert (x - lo) * w >= 0.0;
    assert (hi - x) * w >= 0.0;
  }

  lemma QuotientBounds(s: real, n: real, lo: real, hi: real)
    requires 0.0 < n && lo * n <= s <= hi * n
    ensures lo <= s / n <= hi
  {
    var q := s / n;
    assert q * n == s;
    assert (q - lo) * n >= 0.0;
    assert (hi - q) * n >= 0.0;
  }

  lemma StepBounds(s0: real, r0: real, x: real, w: real, lo: real, hi: real)
    requires lo * r0 <= s0 <= hi * r0 && lo <= x <= hi && 0.0 <= w
    ensures lo * (r0 + w) <= s0 + x * w <= hi * (r0 + w)
  {
    ScaleBounds(x, lo, hi, w);
    assert lo * (r0 + w) == lo * r0 + lo * w;
    assert hi * (r0 + w) == hi * r0 + hi * w;
  }

  lemma AccuracyWithinPrefix(events: seq<LearningEvent>, lo: real, hi: real)
    requires events != [] && AccuracyWithin(events, lo, hi)
    ensures AccuracyWithin(events[..|events| - 1], lo, hi)
  {
    var init := events[..|events| - 1];
    forall i | 0 <= i < |init| ensures lo <= init[i].accuracy <= hi {
      assert init[i] == events[i];
    }
  }

  lemma {:induction false} WeightedSumBounds(events: seq<LearningEvent>, lo: real, hi: real)
    requires AccuracyWithin(events, lo, hi)
    ensures lo * SumReviewed(events) as real <= SumWeighted(events) <= hi * SumReviewed(events) as real
  {
    if events != [] {
      var init, last := events[..|events| - 1], events[|events| - 1];
      AccuracyWithinPrefix(events, lo, hi);
      WeightedSumBounds(init, lo, hi);
      StepBounds(SumWeighted(init), SumReviewed(init) as real, last.accuracy, last.flagsReviewed as real, lo, hi);
    }
  }

  lemma {:induction false} PlainSumBounds(events: seq<LearningEvent>, lo: real, hi: real)
    requires AccuracyWithin(events, lo, hi)
    ensures lo * |events| as real <= SumAccuracy(events) <= hi * |events| as real
  {
    if events != [] {
      var init, last := events[..|events| - 1], events[|events| - 1];
      AccuracyWithinPrefix(events, lo, hi);
      PlainSumBounds(init, lo, hi);
      StepBounds(SumAccuracy(init), |init| as real, last.accuracy, 1.0, lo, hi);
    }
  }

  /** A period's accuracy lies within the range of its events' accuracies. */
  lemma AggregatedAccuracyBounded(events: seq<LearningEvent>, periodStart: Time, lo: real, hi: real)
    requires events != [] && AccuracyWithin(events, lo, hi)
    ensures lo <= CalculateAggregatedData(events, periodStart).accuracy <= hi
  {
    WeightedSumBounds(events, lo, hi);
    PlainSumBounds(events, lo, hi);
    if SumReviewed(events) > 0 {
      QuotientBounds(SumWeighted(events), SumReviewed(events) as real, lo, hi);
    } else {
      QuotientBounds(SumAccuracy(events), |events| as real, lo, hi);
    }
  }

  // ---------------------------------------------------------------------------
  // Grouping into periods.

  function Flatten(groups: seq<seq<LearningEvent>>): seq<LearningEvent> {
    if groups == [] then [] else Flatten(groups[..|groups| - 1]) + groups[|groups| - 1]
  }

  /** The periods of a series: an event joins the current period when it is in
      the same period as that period's first event, and starts a new one
      otherwise. */
  function Groups(data: seq<LearningEvent>, same: (Time, Time) -> bool): (gs: seq<seq<LearningEvent>>)
    ensures |gs| <= |data|
    ensures data != [] ==> |gs| >= 1
    ensures NonEmptyGroups(gs)
  {
    if data == [] then []
    else
      var prev := Groups(data[..|data| - 1], same);
      var e := data[|data| - 1];
      if prev != [] && same(prev[|prev| - 1][0].date, e.date)
      then prev[..|prev| - 1] + [prev[|prev| - 1] + [e]]
      else prev + [[e]]
  }

  /** The period test of one granularity, over abstract week and month keys. */
  function SamePeriod(granularity: Granularity, weekOf: Time -> int, monthOf: Time -> int): (Time, Time) -> bool {
    (a: Time, b: Time) =>
      (granularity == Weekly && weekOf(a) == weekOf(b)) || (granularity == Monthly && monthOf(a) == monthOf(b))
  }

  /** Every period holds at least one event. */
  predicate NonEmptyGroups(groups: seq<seq<LearningEvent>>) {
    forall i :: 0 <= i < |groups| ==> |groups[i]| > 0
  }

  /** One summary event per period, dated at the period's first event. */
  function Summaries(groups: seq<seq<LearningEvent>>): (r: seq<LearningEvent>)
    requires NonEmptyGroups(groups)
    ensures |r| == |groups|
    ensures forall i :: 0 <= i < |groups| ==> r[i] == CalculateAggregatedData(groups[i], groups[i][0].date)
  {
    seq(|groups|, i requires 0 <= i < |groups| => CalculateAggregatedData(groups[i], groups[i][0].date))
  }

  /** An event in the same period as the current period's first event joins it. */
  lemma ExtendCurrent(data: seq<LearningEvent>, i: nat, same: (Time, Time) -> bool,
                      closed: seq<seq<LearningEvent>>, current: seq<LearningEvent>)
    requires i < |data| && current != []
    requires Groups(data[..i], same) == closed + [current]
    requires same(current[0].date, data[i].date)
    ensures Groups(data[..i + 1], same) == closed + [current + [data[i]]]
  {
    assert data[..i + 1][..i] == data[..i];
    var prev := closed + [current];
    assert prev[..|prev| - 1] == closed;
  }

  /** An event outside the current period closes it and opens a new one. */
  lemma ExtendNew(data: seq<LearningEvent>, i: nat, same: (Time, Time) -> bool,
                  closed: seq<seq<LearningEvent>>, current: seq<LearningEvent>)
    requires i < |data| && current != []
    requires Groups(data[..i], same) == closed + [current]
    requires !same(current[0].date, data[i].date)
    ensures Groups(data[..i + 1], same) == (closed + [current]) + [[data[i]]]
  {
    assert data[..i + 1][..i] == data[..i];
  }

  /** Closing the current period adds its summary. */
  lemma SummariesSnoc(closed: seq<seq<LearningEvent>>, g: seq<LearningEvent>)
    requires NonEmptyGroups(closed) && |g| > 0
    ensures NonEmptyGroups(closed + [g])
    ensures Summaries(closed + [g]) == Summaries(closed) + [CalculateAggregatedData(g, g[0].date)]
  {
  }

  /** aggregateDataByGranularity(data, granularity), with the calendar's week
      and month keys given. */
  method AggregateDataByGranularity(data: seq<LearningEvent>, granularity: Granularity,
                                    weekOf: Time -> int, monthOf: Time -> int)
    returns (aggregated: seq<LearningEvent>)
    ensures granularity == Daily || data == [] ==> aggregated == data
    ensures granularity != Daily ==>
      aggregated == Summaries(Groups(data, SamePeriod(granularity, weekOf, monthOf)))
  {
    if granularity == Daily || |data| == 0 {
      return data;
    }
    var same := SamePeriod(granularity, weekOf, monthOf);
    // The first event opens the first period (the loop's `!currentPeriodStart` case).
    aggregated := [];
    var currentPeriodStart := data[0].date;
    var currentPeriodData := [data[0]];
    assert data[..1][..0] == [];
    var i := 1;
    ghost var closed: seq<seq<LearningEvent>> := [];
    while i < |data|
      invariant 1 <= i <= |data|
      invariant Groups(data[..i], same) == closed + [currentPeriodData]
      invariant NonEmptyGroups(closed)
      invariant currentPeriodData != [] && currentPeriodStart == currentPeriodData[0].date
      invariant aggregated == Summaries(closed)
    {
      var event := data[i];
      if same(currentPeriodStart, event.date) {
        ExtendCurrent(data, i, same, closed, currentPeriodData);
        currentPeriodData := currentPeriodData + [event];
      } else {
        ExtendNew(data, i, same, closed, currentPeriodData);
        SummariesSnoc(closed, currentPeriodData);
        aggregated := aggregated + [CalculateAggregatedData(currentPeriodData, currentPeriodStart)];
        closed := closed + [currentPeriodData];
        currentPeriodStart := event.date;
        currentPeriodData := [event];
      }
      i := i + 1;
    }
    assert data[..|data|] == data;
    SummariesSnoc(closed, currentPeriodData);
    aggregated := aggregated + [CalculateAggregatedData(currentPeriodData, currentPeriodStart)];
  }

  /** Grouping neither loses, duplicates nor reorders events. */
  lemma {:induction false} GroupsFlatten(data: seq<LearningEvent>, same: (Time, Time) -> bool)
    ensures Flatten(Groups(data, same)) == data
  {
    if data != [] {
      var init := data[..|data| - 1];
      GroupsFlatten(init, same);
      var prev: seq<seq<LearningEvent>> := Groups(init, same);
      var e := data[|data| - 1];
      if prev != [] && same(prev[|prev| - 1][0].date, e.date) {
        var gs := prev[..|prev| - 1] + [prev[|prev| - 1] + [e]];
        assert gs[..|gs| - 1] == prev[..|prev| - 1];
        assert Flatten(prev) == Flatten(prev[..|prev| - 1]) + prev[|prev| - 1];
      } else {
        var gs := prev + [[e]];
        assert gs[..|gs| - 1] == prev;
      }
    }
  }

  /** Each period holds only events in the same period as its first event. */
  predicate WithinPeriods(gs: seq<seq<LearningEvent>>, same: (Time, Time) -> bool)
    requires NonEmptyGroups(gs)
  {
    forall i, j :: 0 <= i < |gs| && 0 < j < |gs[i]| ==> same(gs[i][0].date, gs[i][j].date)
  }

  /** Each period's first event is not in the same period as the first event
      of the period before it. */
  predicate PeriodsBreak(gs: seq<seq<LearningEvent>>, same: (Time, Time) -> bool)
    requires NonEmptyGroups(gs)
  {
    forall i :: 0 < i < |gs| ==> !same(gs[i - 1][0].date, gs[i][0].date)
  }

  /** An event in the last period's span joins that period. */
  lemma JoinKeepsPeriods(prev: seq<seq<LearningEvent>>, e: LearningEvent, same: (Time, Time) -> bool)
    requires NonEmptyGroups(prev) && WithinPeriods(prev, same) && PeriodsBreak(prev, same)
    requires prev != [] && same(prev[|prev| - 1][0].date, e.date)
    ensures var gs := prev[..|prev| - 1] + [prev[|prev| - 1] + [e]];
      NonEmptyGroups(gs) && WithinPeriods(gs, same) && PeriodsBreak(gs, same)
  {
    var n := |prev| - 1;
    var gs := prev[..n] + [prev[n] + [e]];
    assert |gs| == |prev|;
    forall i | 0 <= i < |gs| ensures gs[i][0] == prev[i][0] && |gs[i]| > 0 {
      if i < n {
        assert gs[i] == prev[i];
      }
    }
    forall i, j | 0 <= i < |gs| && 0 < j < |gs[i]| ensures same(gs[i][0].date, gs[i][j].date) {
      if i < n {
        assert gs[i] == prev[i];
      } else if j < |prev[n]| {
        assert gs[i][j] == prev[n][j];
      }
    }
  }

  /** An event outside the last period's span starts a new period. */
  lemma NewKeepsPeriods(prev: seq<seq<LearningEvent>>, e: LearningEvent, same: (Time, Time) -> bool)
    requires NonEmptyGroups(prev) && WithinPeriods(prev, same) && PeriodsBreak(prev, same)
    requires prev != [] ==> !same(prev[|prev| - 1][0].date, e.date)
    ensures var gs := prev + [[e]];
      NonEmptyGroups(gs) && WithinPeriods(gs, same) && PeriodsBreak(gs, same)
  {
    var gs := prev + [[e]];
    forall i | 0 <= i < |prev| ensures gs[i] == prev[i] {
    }
    forall i | 0 < i < |gs| ensures !same(gs[i - 1][0].date, gs[i][0].date) {
      if i < |prev| {
        assert gs[i] == prev[i];
      }
    }
  }

  /** The periods are exactly the maximal runs the period test allows. */
  lemma {:induction false} GroupsArePeriods(data: seq<LearningEvent>, same: (Time, Time) -> bool)
    ensures WithinPeriods(Groups(data, same), same)
    ensures PeriodsBreak(Groups(data, same), same)
  {
    if data != [] {
      var init := data[..|data| - 1];
      var e := data[|data| - 1];
      GroupsArePeriods(init, same);
      var prev: seq<seq<LearningEvent>> := Groups(init, same);
      if prev != [] && same(prev[|prev| - 1][0].date, e.date) {
        JoinKeepsPeriods(prev, e, same);
      } else {
        NewKeepsPeriods(prev, e, same);
      }
    }
  }

  lemma {:induction false} SumsOfFlatten(groups: seq<seq<LearningEvent>>)
    requires NonEmptyGroups(groups)
    ensures SumLearned(Summaries(groups)) == SumLearned(Flatten(groups))
    ensures SumReviewed(Summaries(groups)) == SumReviewed(Flatten(groups))
  {
    if groups != [] {
      var init := groups[..|groups| - 1];
      SumsOfFlatten(init);
      SumsOfConcat(Flatten(init), groups[|groups| - 1]);
      assert Summaries(groups)[..|groups| - 1] == Summaries(init);
    }
  }

  /** Aggregation keeps the totals of learned and reviewed flags, and never
      makes the series longer; a non-empty series stays non-empty. */
  lemma AggregationPreservesTotals(data: seq<LearningEvent>, granularity: Granularity,
                                   weekOf: Time -> int, monthOf: Time -> int)
    ensures var out := Summaries(Groups(data, SamePeriod(granularity, weekOf, monthOf)));
      && SumLearned(out) == SumLearned(data) && SumReviewed(out) == SumReviewed(data)
      && |out| <= |data| && (data != [] ==> out != [])
  {
    var same := SamePeriod(granularity, weekOf, monthOf);
    SumsOfFlatten(Groups(data, same));
    GroupsFlatten(data, same);
  }
}
