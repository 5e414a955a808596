/** The gates of a performance comparison: lists built case by case, and what passing them means. */
module Gates {
  import opened Results

  datatype Key = Key(context: int, concurrency: int)

  /** Medians and tails; a value is absent when it is missing or no finite number. */
  datatype Times = Times(observed: bool, median: Option<real>, p95: Option<real>)

  datatype Rates = Rates(observed: bool, samples: int, median: real, stdev: real)

  datatype Row = Row(key: Key, failures: int, latency: Times, ttft: Times, throughput: Rates)

  datatype Pair = Pair(key: Key, left: Row, right: Row)

  datatype Startup = Startup(observed: bool, failed: bool, unknown: bool, median: Option<real>)

  datatype Metric = Latency | Ttft | ColdStart | WarmStart

  datatype Compared = Compared(key: Option<Key>, metric: Metric, tail: bool, regression: real)

  datatype Missing = Missing(key: Option<Key>, metric: Metric, tail: bool)

  datatype Status = Passed | Incomplete | Regressed

  datatype Lists = Lists(comparisons: seq<Compared>, incomplete: seq<Missing>)

  datatype Gate = Gate(status: Status, lists: Lists)

  function Percent(baseline: real, candidate: real): real
    requires baseline != 0.0
  {
    (candidate - baseline) * 100.0 / baseline
  }

  /** The change in percent, or nothing for a value that is missing or a baseline not above zero. */
  function Regression(baseline: Option<real>, candidate: Option<real>): Option<real> {
    if baseline.None? || candidate.None? || baseline.value <= 0.0 then None
    else Some(Percent(baseline.value, candidate.value))
  }

  function Both(a: Lists, b: Lists): Lists {
    Lists(a.comparisons + b.comparisons, a.incomplete + b.incomplete)
  }

  const Nothing := Lists([], [])

  function OneValue(key: Option<Key>, metric: Metric, tail: bool, baseline: Option<real>, candidate: Option<real>): Lists {
    match Regression(baseline, candidate)
    case None => Lists([], [Missing(key, metric, tail)])
    case Some(change) => Lists([Compared(key, metric, tail, change)], [])
  }

  /** The median, and the tail where both sides have one and the median could be compared. */
  function OneMetric(key: Option<Key>, metric: Metric, left: Times, right: Times): Lists {
    if !left.observed || !right.observed then Lists([], [Missing(key, metric, false)])
    else
      var median := OneValue(key, metric, false, left.median, right.median);
      if median.comparisons == [] || left.p95.None? || right.p95.None? then median
      else Both(median, OneValue(key, metric, true, left.p95, right.p95))
  }

  function OneCase(pair: Pair): Lists {
    Both(OneMetric(Some(pair.key), Latency, pair.left.latency, pair.right.latency),
         OneMetric(Some(pair.key), Ttft, pair.left.ttft, pair.right.ttft))
  }

  function AllCases(pairs: seq<Pair>): Lists {
    if pairs == [] then Nothing else Both(AllCases(pairs[..|pairs| - 1]), OneCase(pairs[|pairs| - 1]))
  }

  predicate Tolerated(comparisons: seq<Compared>, maximum: real) {
    forall i :: 0 <= i < |comparisons| ==> comparisons[i].regression <= maximum
  }

  function Judge(lists: Lists, maximum: real): Gate {
    Gate(if lists.incomplete != [] then Incomplete
         else if !Tolerated(lists.comparisons, maximum) then Regressed
         else Passed, lists)
  }

  // ----- the latency gate

  method CompareValue(key: Option<Key>, metric: Metric, tail: bool, baseline: Option<real>, candidate: Option<real>)
    returns (lists: Lists)
    ensures lists == OneValue(key, metric, tail, baseline, candidate)
  {
    if baseline.None? || candidate.None? || baseline.value <= 0.0 {
      return Lists([], [Missing(key, metric, tail)]);
    }
    var change := (candidate.value - baseline.value) * 100.0 / baseline.value;
    lists := Lists([Compared(key, metric, tail, change)], []);
  }

  /** One metric of one case: a median that cannot be compared ends it, and the tail follows where both
      sides have one. */
  method CompareMetric(key: Option<Key>, metric: Metric, left: Times, right: Times) returns (lists: Lists)
    ensures lists == OneMetric(key, metric, left, right)
  {
    if !left.observed || !right.observed { return Lists([], [Missing(key, metric, false)]); }
    lists := CompareValue(key, metric, false, left.median, right.median);
    if lists.incomplete != [] { return; }
    if left.p95.Some? && right.p95.Some? {
      var tail := CompareValue(key, metric, true, left.p95, right.p95);
      lists := Lists(lists.comparisons + tail.comparisons, lists.incomplete + tail.incomplete);
    }
  }

  /** The status of the lists: incomplete before regressed. */
  method JudgeLists(lists: Lists, maximum: real) returns (gate: Gate)
    ensures gate == Judge(lists, maximum)
  {
    if |lists.incomplete| > 0 { return Gate(Incomplete, lists); }
    var i := 0;
    while i < |lists.comparisons|
      invariant 0 <= i <= |lists.comparisons| && Tolerated(lists.comparisons[..i], maximum)
    {
      if lists.comparisons[i].regression > maximum { return Gate(Regressed, lists); }
      i := i + 1;
    }
    gate := Gate(Passed, lists);
  }

  method LatencyGate(pairs: seq<Pair>, maximum: real) returns (gate: Gate)
    ensures gate == Judge(AllCases(pairs), maximum)
  {
    var lists, i := Nothing, 0;
    while i < |pairs|
      invariant 0 <= i <= |pairs|
      invariant lists == AllCases(pairs[..i])
    {
      var here := Nothing;
      var m := 0;
      while m < 2
        invariant 0 <= m <= 2
        invariant here == if m == 0 then Nothing
                          else if m == 1 then OneMetric(Some(pairs[i].key), Latency, pairs[i].left.latency, pairs[i].right.latency)
                          else OneCase(pairs[i])
      {
        var metric := if m == 0 then Latency else Ttft;
        var left := if m == 0 then pairs[i].left.latency else pairs[i].left.ttft;
        var right := if m == 0 then pairs[i].right.latency else pairs[i].right.ttft;
        var more := CompareMetric(Some(pairs[i].key), metric, left, right);
        NothingFirst(more);
        here := Both(here, more);
        m := m + 1;
      }
      assert pairs[..i + 1][..i] == pairs[..i];
      lists := Both(lists, here);
      i := i + 1;
    }
    assert pairs[..i] == pairs;
    gate := JudgeLists(lists, maximum);
  }

  lemma NothingFirst(lists: Lists)
    ensures Both(Nothing, lists) == lists
  {
    assert [] + lists.comparisons == lists.comparisons && [] + lists.incomplete == lists.incomplete;
  }

  /** A candidate time no more than the maximum percentage above a positive baseline. */
  predicate Within(baseline: Option<real>, candidate: Option<real>, maximum: real) {
    baseline.Some? && candidate.Some? && baseline.value > 0.0 && Exceeds(baseline.value, candidate.value, maximum)
  }

  predicate Exceeds(baseline: real, candidate: real, maximum: real) {
    100.0 * candidate <= (100.0 + maximum) * baseline
  }

  lemma PercentMeans(baseline: real, candidate: real, limit: real)
    requires baseline > 0.0
    ensures Percent(baseline, candidate) <= limit <==> 100.0 * candidate <= (100.0 + limit) * baseline
    ensures Percent(baseline, candidate) >= limit <==> 100.0 * candidate >= (100.0 + limit) * baseline
  {
    var p := Percent(baseline, candidate);
    TimesQuotient((candidate - baseline) * 100.0, baseline);
    assert p * baseline == 100.0 * candidate - 100.0 * baseline;
    SameOrder(p, limit, baseline);
    assert (100.0 + limit) * baseline == 100.0 * baseline + limit * baseline;
  }

  lemma TimesQuotient(x: real, d: real)
    requires d > 0.0
    ensures (x / d) * d == x
  {
  }

  lemma SameOrder(a: real, b: real, d: real)
    requires d > 0.0
    ensures a <= b <==> a * d <= b * d
  {
    if a * d <= b * d { Cancel(a, b, d); }
  }

  lemma Cancel(a: real, b: real, d: real)
    requires d > 0.0 && a * d <= b * d
    ensures a <= b
  {
  }

  predicate Fine(lists: Lists, maximum: real) {
    lists.incomplete == [] && Tolerated(lists.comparisons, maximum)
  }

  lemma JudgeFine(lists: Lists, maximum: real)
    ensures Judge(lists, maximum).status == Passed <==> Fine(lists, maximum)
  {
  }

  lemma FineBoth(a: Lists, b: Lists, maximum: real)
    ensures Fine(Both(a, b), maximum) <==> Fine(a, maximum) && Fine(b, maximum)
  {
    var all := a.comparisons + b.comparisons;
    if Tolerated(all, maximum) {
      forall i | 0 <= i < |a.comparisons| ensures a.comparisons[i].regression <= maximum { assert all[i] == a.comparisons[i]; }
      forall i | 0 <= i < |b.comparisons| ensures b.comparisons[i].regression <= maximum {
        assert all[|a.comparisons| + i] == b.comparisons[i];
      }
    }
  }

  lemma OneValueFine(key: Option<Key>, metric: Metric, tail: bool, baseline: Option<real>, candidate: Option<real>,
                     maximum: real)
    ensures Fine(OneValue(key, metric, tail, baseline, candidate), maximum) <==> Within(baseline, candidate, maximum)
    ensures OneValue(key, metric, tail, baseline, candidate).comparisons == [] ==>
      !Fine(OneValue(key, metric, tail, baseline, candidate), maximum)
  {
    if Regression(baseline, candidate).Some? {
      PercentMeans(baseline.value, candidate.value, maximum);
      assert OneValue(key, metric, tail, baseline, candidate).comparisons[0].regression ==
             Percent(baseline.value, candidate.value);
    }
  }

  /** Both sides observed, the median within the tolerance, and so the tail where both sides have one. */
  predicate MetricOk(left: Times, right: Times, maximum: real) {
    && left.observed && right.observed && Within(left.median, right.median, maximum)
    && (left.p95.Some? && right.p95.Some? ==> Within(left.p95, right.p95, maximum))
  }

  lemma OneMetricFine(key: Option<Key>, metric: Metric, left: Times, right: Times, maximum: real)
    ensures Fine(OneMetric(key, metric, left, right), maximum) <==> MetricOk(left, right, maximum)
  {
    if left.observed && right.observed {
      OneValueFine(key, metric, false, left.median, right.median, maximum);
      OneValueFine(key, metric, true, left.p95, right.p95, maximum);
      FineBoth(OneValue(key, metric, false, left.median, right.median),
               OneValue(key, metric, true, left.p95, right.p95), maximum);
    }
  }

  predicate LatencyOk(pair: Pair, maximum: real) {
    MetricOk(pair.left.latency, pair.right.latency, maximum) && MetricOk(pair.left.ttft, pair.right.ttft, maximum)
  }

  /** The latency gate passes exactly when every case's latency and time to first token, median and
      tail, stay within the allowed regression. */
  lemma {:induction false} LatencyMeans(pairs: seq<Pair>, maximum: real)
    ensures Judge(AllCases(pairs), maximum).status == Passed <==>
            forall i :: 0 <= i < |pairs| ==> LatencyOk(pairs[i], maximum)
  {
    JudgeFine(AllCases(pairs), maximum);
    if pairs != [] {
      var front, last := pairs[..|pairs| - 1], pairs[|pairs| - 1];
      LatencyMeans(front, maximum);
      JudgeFine(AllCases(front), maximum);
      FineBoth(AllCases(front), OneCase(last), maximum);
      FineBoth(OneMetric(Some(last.key), Latency, last.left.latency, last.right.latency),
               OneMetric(Some(last.key), Ttft, last.left.ttft, last.right.ttft), maximum);
      OneMetricFine(Some(last.key), Latency, last.left.latency, last.right.latency, maximum);
      OneMetricFine(Some(last.key), Ttft, last.left.ttft, last.right.ttft, maximum);
    }
  }

  // ----- the startup gate

  function Phase(metric: Metric, baseline: Startup, candidate: Startup): Lists {
    if !baseline.observed || !candidate.observed || baseline.failed || candidate.failed
       || baseline.unknown || candidate.unknown
    then Lists([], [Missing(None, metric, false)])
    else OneValue(None, metric, false, baseline.median, candidate.median)
  }

  function StartupGate(cold: (Startup, Startup), warm: (Startup, Startup), maximum: real): Gate {
    Judge(Both(Phase(ColdStart, cold.0, cold.1), Phase(WarmStart, warm.0, warm.1)), maximum)
  }

  /** The startup gate, cold before warm. */
  method CheckStartup(cold: (Startup, Startup), warm: (Startup, Startup), maximum: real) returns (gate: Gate)
    ensures gate == StartupGate(cold, warm, maximum)
  {
    var phases, lists, i := [(ColdStart, cold), (WarmStart, warm)], Nothing, 0;
    while i < 2
      invariant 0 <= i <= 2
      invariant lists == if i == 0 then Nothing else if i == 1 then Phase(ColdStart, cold.0, cold.1)
                         else Both(Phase(ColdStart, cold.0, cold.1), Phase(WarmStart, warm.0, warm.1))
    {
      var (metric, (first, second)) := phases[i];
      var here := Lists([], [Missing(None, metric, false)]);
      if first.observed && second.observed && !(first.failed || second.failed || first.unknown || second.unknown) {
        here := CompareValue(None, metric, false, first.median, second.median);
      }
      NothingFirst(here);
      lists := Both(lists, here);
      i := i + 1;
    }
    gate := JudgeLists(lists, maximum);
  }

  predicate PhaseOk(baseline: Startup, candidate: Startup, maximum: real) {
    && baseline.observed && candidate.observed && !baseline.failed && !candidate.failed
    && !baseline.unknown && !candidate.unknown
    && Within(baseline.median, candidate.median, maximum)
  }

  lemma StartupMeans(cold: (Startup, Startup), warm: (Startup, Startup), maximum: real)
    ensures StartupGate(cold, warm, maximum).status == Passed <==>
            PhaseOk(cold.0, cold.1, maximum) && PhaseOk(warm.0, warm.1, maximum)
  {
    var one, two := Phase(ColdStart, cold.0, cold.1), Phase(WarmStart, warm.0, warm.1);
    JudgeFine(Both(one, two), maximum);
    FineBoth(one, two, maximum);
    OneValueFine(None, ColdStart, false, cold.0.median, cold.1.median, maximum);
    OneValueFine(None, WarmStart, false, warm.0.median, warm.1.median, maximum);
  }

  // ----- the throughput gate

  datatype Gain = Gain(key: Key, gain: real, variation: real, required: real)

  datatype Gains = Gains(cases: seq<Gain>, incomplete: seq<Key>)

  predicate RatesOk(left: Rates, right: Rates) {
    && left.observed && right.observed && left.samples >= 3 && right.samples >= 3
    && left.median > 0.0 && right.median > 0.0
  }

  function Larger(a: real, b: real): real { if a < b then b else a }

  function Variation(left: Rates, right: Rates): real
    requires RatesOk(left, right)
  {
    100.0 * (left.stdev / left.median + right.stdev / right.median)
  }

  function GainOf(pair: Pair, noise: real): Gain
    requires RatesOk(pair.left.throughput, pair.right.throughput)
  {
    var left, right := pair.left.throughput, pair.right.throughput;
    Gain(pair.key, Percent(left.median, right.median), Variation(left, right), Larger(noise, Variation(left, right)))
  }

  function AllGains(pairs: seq<Pair>, noise: real): Gains {
    if pairs == [] then Gains([], [])
    else
      var before, last := AllGains(pairs[..|pairs| - 1], noise), pairs[|pairs| - 1];
      if RatesOk(last.left.throughput, last.right.throughput)
      then Gains(before.cases + [GainOf(last, noise)], before.incomplete)
      else Gains(before.cases, before.incomplete + [last.key])
  }

  method ThroughputGate(pairs: seq<Pair>, noise: real) returns (gains: Gains)
    ensures gains == AllGains(pairs, noise)
  {
    gains := Gains([], []);
    var i := 0;
    while i < |pairs|
      invariant 0 <= i <= |pairs|
      invariant gains == AllGains(pairs[..i], noise)
    {
      var pair, left, right := pairs[i], pairs[i].left.throughput, pairs[i].right.throughput;
      assert pairs[..i + 1][..i] == pairs[..i];
      if !left.observed || !right.observed || left.samples < 3 || right.samples < 3 {
        gains := Gains(gains.cases, gains.incomplete + [pair.key]);
      } else if left.median <= 0.0 || right.median <= 0.0 {
        gains := Gains(gains.cases, gains.incomplete + [pair.key]);
      } else {
        var gain := (right.median - left.median) * 100.0 / left.median;
        var variation := 100.0 * (left.stdev / left.median + right.stdev / right.median);
        var required := noise;
        if variation > required { required := variation; }
        gains := Gains(gains.cases + [Gain(pair.key, gain, variation, required)], gains.incomplete);
      }
      i := i + 1;
    }
    assert pairs[..i] == pairs;
  }

  /** The gate passes exactly when every case has repeated positive rates, and then lists its gain. */
  lemma {:induction false} GainsMean(pairs: seq<Pair>, noise: real)
    ensures AllGains(pairs, noise).incomplete == [] <==>
            forall i :: 0 <= i < |pairs| ==> RatesOk(pairs[i].left.throughput, pairs[i].right.throughput)
    ensures AllGains(pairs, noise).incomplete == [] ==>
      |AllGains(pairs, noise).cases| == |pairs|
      && forall i :: 0 <= i < |pairs| ==> AllGains(pairs, noise).cases[i] == GainOf(pairs[i], noise)
  {
    if pairs != [] {
      GainsMean(pairs[..|pairs| - 1], noise);
    }
  }

  function Least(gains: seq<Gain>): Option<real> {
    if gains == [] then None
    else
      var before, last := Least(gains[..|gains| - 1]), gains[|gains| - 1].gain;
      if before.None? || last < before.value then Some(last) else before
  }

  method LeastGain(gains: seq<Gain>) returns (least: Option<real>)
    ensures least == Least(gains)
  {
    least := None;
    var i := 0;
    while i < |gains|
      invariant 0 <= i <= |gains| && least == Least(gains[..i])
    {
      assert gains[..i + 1][..i] == gains[..i];
      if least.None? || gains[i].gain < least.value { least := Some(gains[i].gain); }
      i := i + 1;
    }
    assert gains[..i] == gains;
  }

  lemma {:induction false} LeastMeans(gains: seq<Gain>, bound: real)
    ensures Least(gains).None? <==> gains == []
    ensures gains != [] ==> (Least(gains).value >= bound <==> forall i :: 0 <= i < |gains| ==> gains[i].gain >= bound)
  {
    if gains != [] {
      LeastMeans(gains[..|gains| - 1], bound);
    }
  }
}
