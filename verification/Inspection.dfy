/** What an inspected profile lists, and what a selection can rest on. */
module Inspection {
  import opened Results
  import opened Gates
  import opened Decision
  import opened Alignment

  // ----- the serving metrics of a result

  /** A measurement summary as it is read; a number is absent when it is missing or not finite. */
  datatype Raw = Raw(n: Option<int>, minimum: Option<real>, median: Option<real>, maximum: Option<real>,
                     stdev: Option<real>, p95: Option<real>)

  datatype RawRow = RawRow(failures: Option<int>, context: Option<int>, concurrency: Option<int>,
                           throughput: Option<Raw>, latency: Option<Raw>, ttft: Option<Raw>)

  datatype SourceStatus = MeasuredNotQualified | AwaitingProvenance | OtherSource

  datatype Metrics = Unobserved | Observed(cases: seq<Row>)

  datatype Summary = Unknown | Known(samples: int, median: real, stdev: real, p95: Option<real>)

  predicate NotNegative(value: Option<real>) { value.Some? && value.value >= 0.0 }

  /** A missing summary is unknown; a tail is kept only from twenty samples on. */
  function MedianSummary(raw: Option<Raw>): Result<Summary> {
    if raw.None? then Ok(Unknown)
    else
      var r := raw.value;
      if r.n.None? || r.n.value < 1 || !NotNegative(r.minimum) || !NotNegative(r.median) || !NotNegative(r.maximum)
         || !NotNegative(r.stdev) || (r.n.value >= 20 && !NotNegative(r.p95)) then Refused
      else Ok(Known(r.n.value, r.median.value, r.stdev.value, if r.n.value >= 20 then r.p95 else None))
  }

  function TimesOf(summary: Summary): Times {
    match summary
    case Unknown => Times(false, None, None)
    case Known(_, median, _, p95) => Times(true, Some(median), p95)
  }

  function RatesOf(summary: Summary): Rates {
    match summary
    case Unknown => Rates(false, 0, 0.0, 0.0)
    case Known(samples, median, stdev, _) => Rates(true, samples, median, stdev)
  }

  predicate WellFormedRow(raw: RawRow) {
    && raw.failures.Some? && raw.failures.value >= 0
    && raw.context.Some? && raw.context.value >= 1 && raw.concurrency.Some? && raw.concurrency.value >= 1
  }

  predicate Readable(raw: RawRow) {
    WellFormedRow(raw) && MedianSummary(raw.throughput).Ok? && MedianSummary(raw.latency).Ok? && MedianSummary(raw.ttft).Ok?
  }

  function KeyOf(raw: RawRow): Key
    requires WellFormedRow(raw)
  {
    Key(raw.context.value, raw.concurrency.value)
  }

  function RowOf(raw: RawRow): Row
    requires Readable(raw)
  {
    Row(KeyOf(raw), raw.failures.value, TimesOf(MedianSummary(raw.latency).value),
        TimesOf(MedianSummary(raw.ttft).value), RatesOf(MedianSummary(raw.throughput).value))
  }

  predicate AllReadable(rows: seq<RawRow>) {
    forall i :: 0 <= i < |rows| ==> Readable(rows[i])
  }

  function RowsOf(rows: seq<RawRow>): (cases: seq<Row>)
    requires AllReadable(rows)
    ensures |cases| == |rows| && forall i :: 0 <= i < |cases| ==> cases[i] == RowOf(rows[i])
  {
    if rows == [] then [] else RowsOf(rows[..|rows| - 1]) + [RowOf(rows[|rows| - 1])]
  }

  predicate DistinctKeys(cases: seq<Row>) {
    forall i, j :: 0 <= i < j < |cases| ==> cases[i].key != cases[j].key
  }

  /** What a result's repeat summary must be for its cases to be observed. */
  predicate Observable(wellFormed: bool, status: SourceStatus, rows: Option<seq<RawRow>>) {
    && wellFormed && status == MeasuredNotQualified && rows.Some? && rows.value != []
    && AllReadable(rows.value) && DistinctKeys(RowsOf(rows.value))
  }

  function KeysUpTo(cases: seq<Row>): set<Key> { set i | 0 <= i < |cases| :: cases[i].key }

  lemma {:induction false} OneMoreKey(cases: seq<Row>, row: Row)
    ensures KeysUpTo(cases + [row]) == KeysUpTo(cases) + {row.key}
    ensures DistinctKeys(cases + [row]) <==> DistinctKeys(cases) && row.key !in KeysUpTo(cases)
  {
    var all := cases + [row];
    assert all[|cases|] == row;
    assert forall i :: 0 <= i < |cases| ==> all[i] == cases[i];
    if row.key in KeysUpTo(cases) {
      var i :| 0 <= i < |cases| && cases[i].key == row.key;
      assert all[i].key == all[|cases|].key;
    }
  }

  lemma {:induction false} OneMoreRow(rows: seq<RawRow>, i: nat)
    requires i < |rows| && AllReadable(rows[..i]) && Readable(rows[i])
    ensures AllReadable(rows[..i + 1]) && RowsOf(rows[..i + 1]) == RowsOf(rows[..i]) + [RowOf(rows[i])]
  {
    assert rows[..i + 1] == rows[..i] + [rows[i]];
    assert rows[..i + 1][..i] == rows[..i];
  }

  /** One summary: absent is unknown; else a positive count, no statistic missing or negative, and from
      twenty samples on a tail that counts. */
  method Summarise(raw: Option<Raw>) returns (summary: Result<Summary>)
    ensures summary == MedianSummary(raw)
  {
    if raw.None? { return Ok(Unknown); }
    var r := raw.value;
    if r.n.None? || r.n.value <= 0 { return Refused; }
    var statistics, i := [r.minimum, r.median, r.maximum, r.stdev], 0;
    while i < 4
      invariant 0 <= i <= 4 && forall k :: 0 <= k < i ==> NotNegative(statistics[k])
    {
      if statistics[i].None? || statistics[i].value < 0.0 {
        assert !NotNegative(statistics[i]);
        return Refused;
      }
      i := i + 1;
    }
    assert NotNegative(statistics[0]) && NotNegative(statistics[1]) && NotNegative(statistics[2]) && NotNegative(statistics[3]);
    if r.n.value < 20 { return Ok(Known(r.n.value, r.median.value, r.stdev.value, None)); }
    if r.p95.None? || r.p95.value < 0.0 { return Refused; }
    summary := Ok(Known(r.n.value, r.median.value, r.stdev.value, r.p95));
  }

  /** One row with its three summaries. */
  method ReadRow(raw: RawRow) returns (row: Option<Row>)
    requires WellFormedRow(raw)
    ensures row.Some? <==> Readable(raw)
    ensures row.Some? ==> row.value == RowOf(raw)
  {
    var throughput := Summarise(raw.throughput);
    var latency := Summarise(raw.latency);
    var ttft := Summarise(raw.ttft);
    if throughput.Refused? || latency.Refused? || ttft.Refused? { return None; }
    var rates := if throughput.value.Unknown? then Rates(false, 0, 0.0, 0.0)
                 else Rates(true, throughput.value.samples, throughput.value.median, throughput.value.stdev);
    row := Some(Row(Key(raw.context.value, raw.concurrency.value), raw.failures.value, TimesOf(latency.value),
                    TimesOf(ttft.value), rates));
  }

  /** The metrics of a serving result. A result whose provenance is still awaited is refused; one with
      a malformed row, a repeated case or an invalid summary is incomplete. */
  method ServingMetrics(wellFormed: bool, status: SourceStatus, rows: Option<seq<RawRow>>) returns (metrics: Result<Metrics>)
    ensures metrics.Refused? <==> wellFormed && status == AwaitingProvenance
    ensures metrics.Ok? ==> (metrics.value.Observed? <==> Observable(wellFormed, status, rows))
    ensures metrics.Ok? && metrics.value.Observed? ==> metrics.value.cases == RowsOf(rows.value)
  {
    if !wellFormed { return Ok(Unobserved); }
    if status == AwaitingProvenance { return Refused; }
    if status != MeasuredNotQualified || rows.None? || rows.value == [] { return Ok(Unobserved); }
    var raws := rows.value;
    var cases: seq<Row>, seen: set<Key>, i := [], {}, 0;
    while i < |raws|
      invariant 0 <= i <= |raws| && AllReadable(raws[..i])
      invariant cases == RowsOf(raws[..i]) && seen == KeysUpTo(cases) && DistinctKeys(cases)
    {
      var raw := raws[i];
      if raw.failures.None? || raw.failures.value < 0 { return Ok(Unobserved); }
      if raw.context.None? || raw.context.value < 1 || raw.concurrency.None? || raw.concurrency.value < 1 {
        return Ok(Unobserved);
      }
      if KeyOf(raws[i]) in seen {
        Repeated(raws, i);
        return Ok(Unobserved);
      }
      var row := ReadRow(raw);
      if row.None? { return Ok(Unobserved); }
      OneMoreRow(raws, i);
      OneMoreKey(cases, row.value);
      cases, seen, i := cases + [row.value], seen + {KeyOf(raw)}, i + 1;
    }
    assert raws[..i] == raws;
    metrics := Ok(Observed(cases));
  }

  lemma {:induction false} NotDistinct(rows: seq<RawRow>, i: nat)
    requires i < |rows| && AllReadable(rows) && !DistinctKeys(RowsOf(rows[..i + 1]))
    ensures !DistinctKeys(RowsOf(rows))
  {
    var prefix := RowsOf(rows[..i + 1]);
    var k, l :| 0 <= k < l < |prefix| && prefix[k].key == prefix[l].key;
    assert RowsOf(rows)[k].key == RowsOf(rows)[l].key;
  }

  lemma {:induction false} Repeated(raws: seq<RawRow>, i: nat)
    requires i < |raws| && AllReadable(raws[..i]) && WellFormedRow(raws[i])
    requires KeyOf(raws[i]) in KeysUpTo(RowsOf(raws[..i]))
    ensures !(AllReadable(raws) && DistinctKeys(RowsOf(raws)))
  {
    if AllReadable(raws) {
      OneMoreRow(raws, i);
      OneMoreKey(RowsOf(raws[..i]), RowOf(raws[i]));
      NotDistinct(raws, i);
    }
  }

  // ----- the rows that are judged

  /** In an inspected profile no case is listed twice, and so every listed row is judged. */
  lemma {:induction false} InspectedRowsJudged(wellFormed: bool, status: SourceStatus, rows: Option<seq<RawRow>>)
    requires Observable(wellFormed, status, rows)
    ensures forall i :: 0 <= i < |RowsOf(rows.value)| ==> Judged(RowsOf(rows.value), i)
  {
    EveryRowJudged(RowsOf(rows.value));
  }

  // ----- what a selection rests on

  /** A selection names the candidate of a record that some comparison produces, and that recommends it. */
  lemma SelectedWhen(matched: (Profile, Profile) -> bool, record: Comparison, candidate: string)
    ensures Select(matched, record, candidate).Ok? <==>
            && candidate == record.candidate.id && record.recommended
            && exists thresholds :: CompareProfiles(matched, record.baseline, record.candidate, record.declared, thresholds)
                                    == Ok(record)
    ensures Select(matched, record, candidate).Ok? ==>
            var first, second := record.baseline, record.candidate;
            && first.id != second.id && first.coding == second.coding
            && forall field :: Differs(first.conditions, second.conditions, field) ==>
                 DeclaredAs(field) in record.declared && DeclaredAs(field) !in NON_EQUIVALENT
  {
    ValidWhen(matched, record);
    if Select(matched, record, candidate).Ok? {
      ComparesWhen(matched, record.baseline, record.candidate, record.declared, Rewrap(record.limits));
      CandidateWhen(matched, record.baseline, record.candidate, record.declared, Rewrap(record.limits));
    }
  }

  predicate Clean(cases: seq<Row>) {
    forall i :: 0 <= i < |cases| ==> cases[i].failures == 0
  }

  lemma {:induction false} PairOfKey(keys: seq<Key>, left: map<Key, Row>, right: map<Key, Row>, key: Key) returns (i: nat)
    requires key in keys && key in left && key in right
    ensures i < |Pairs(keys, left, right)| && Pairs(keys, left, right)[i] == Pair(key, left[key], right[key])
  {
    if keys[0] == key {
      i := 0;
    } else {
      i := PairOfKey(keys[1..], left, right, key);
      if keys[0] in left && keys[0] in right { i := i + 1; }
    }
  }

  /** Where every listed row is judged, a selected record lists no failure on either side. */
  lemma {:induction false} SelectedIsClean(matched: (Profile, Profile) -> bool, record: Comparison, candidate: string)
    requires Select(matched, record, candidate).Ok?
    requires DistinctKeys(record.baseline.cases) && DistinctKeys(record.candidate.cases)
    ensures Clean(record.baseline.cases) && Clean(record.candidate.cases)
  {
    var first, second := record.baseline, record.candidate;
    CandidateWhen(matched, first, second, record.declared, Rewrap(record.limits));
    EveryRowJudged(first.cases);
    EveryRowJudged(second.cases);
    SortedAreKeys(first.cases);
    var pairs := Align(first, second).1;
    forall i | 0 <= i < |first.cases| ensures first.cases[i].failures == 0 {
      assert Judged(first.cases, i);
      JudgedClean(first, second, first.cases[i].key, record.limits);
    }
    forall i | 0 <= i < |second.cases| ensures second.cases[i].failures == 0 {
      assert Judged(second.cases, i);
      JudgedClean(first, second, second.cases[i].key, record.limits);
    }
  }

  lemma {:induction false} JudgedClean(first: Profile, second: Profile, key: Key, limits: Limits)
    requires MeasuredBoth(first, second) && PairsOk(Align(first, second).1, limits)
    requires key in ByKey(first.cases)
    ensures ByKey(first.cases)[key].failures == 0 && ByKey(second.cases)[key].failures == 0
  {
    SortedAreKeys(first.cases);
    var i := PairOfKey(SortedKeys(first.cases), ByKey(first.cases), ByKey(second.cases), key);
  }

  // ----- a record that was never inspected

  const CASE := Key(1, 1)
  const SECONDS := Times(true, Some(10.0), None)
  const START := Startup(true, false, false, Some(10.0))

  function Listed(failures: int, rate: real): Row { Row(CASE, failures, SECONDS, SECONDS, Rates(true, 3, rate, 0.0)) }

  function Forge(id: string, cases: seq<Row>): Profile {
    Profile(id, true, true, true, cases, START, START, Memory(true, "unknown", None, None), true, true, true, map[], map[])
  }

  const BASELINE := Forge("a", [Listed(0, 100.0)])
  const FORGED := Forge("b", [Listed(7, 1.0)] + [Listed(0, 150.0)])
  const HONEST := Forge("b", [Listed(0, 150.0)])
  /** Retained quality runs that match whatever they are compared with. */
  predicate AnyTwo(one: Profile, two: Profile) { true }

  const LIMITS := Limits(5.0, 5.0, 1.0)

  lemma HonestImproves()
    ensures OutcomeOf(Measured(BASELINE, HONEST, LIMITS), true, true, LIMITS) == ImprovesThroughput
  {
    var left, right := Listed(0, 100.0), Listed(0, 150.0);
    assert BASELINE.cases[..0] == [] && HONEST.cases[..0] == [];
    assert ByKey(BASELINE.cases) == map[CASE := left] && ByKey(HONEST.cases) == map[CASE := right];
    assert SortedKeys([]) == [] && [CASE] + [] == [CASE] && [CASE][1..] == [];
    assert SortedKeys(BASELINE.cases) == [CASE];
    var pairs := Align(BASELINE, HONEST).1;
    assert pairs == [Pair(CASE, left, right)] by {
      assert Pairs([], ByKey(BASELINE.cases), ByKey(HONEST.cases)) == [];
    }
    assert CaseGains(pairs[0], LIMITS) by { PercentMeans(100.0, 150.0, 1.0); }
    ImprovesWhen(BASELINE, HONEST, LIMITS, true, true);
  }

  lemma ForgedImproves()
    ensures OutcomeOf(Measured(BASELINE, FORGED, LIMITS), true, true, LIMITS) == ImprovesThroughput
  {
    HonestImproves();
    EarlierRowIgnored(BASELINE, HONEST, Listed(7, 1.0), LIMITS, true, true);
    assert FORGED == HONEST.(cases := [Listed(7, 1.0)] + HONEST.cases);
  }

  lemma ForgedAlike()
    ensures Differences(BASELINE, FORGED, []) == Ok({}) && CodingDifferences(BASELINE, FORGED, []) == Ok({})
    ensures Equivalent({} + {}) && Policy(Rewrap(LIMITS)) == Ok(LIMITS)
  {
    assert Differing(map[], map[]) == {};
  }

  lemma CompareIs(first: Profile, second: Profile, limits: Limits)
    requires first.id != second.id && Policy(Rewrap(limits)) == Ok(limits) && Equivalent({} + {})
    requires Differences(first, second, []) == Ok({}) && CodingDifferences(first, second, []) == Ok({})
    requires first.numericalPassed && first.codingPassed && second.numericalPassed && second.codingPassed
    requires first.retained && second.retained
    ensures var compared := CompareProfiles(AnyTwo, first, second, [], Rewrap(limits));
            && compared.Ok? && compared.value.baseline == first && compared.value.candidate == second
            && compared.value.declared == [] && compared.value.limits == limits
            && compared.value.outcome == OutcomeOf(Measured(first, second, limits), true, true, limits)
            && compared.value.recommended == (compared.value.outcome == ImprovesThroughput)
  {
  }

  lemma ForgedCompares() returns (record: Comparison)
    ensures CompareProfiles(AnyTwo, BASELINE, FORGED, [], Rewrap(LIMITS)) == Ok(record)
    ensures record.recommended && record.baseline == BASELINE && record.candidate == FORGED && record.declared == []
    ensures record.limits == LIMITS
  {
    ForgedImproves();
    ForgedAlike();
    CompareIs(BASELINE, FORGED, LIMITS);
    record := CompareProfiles(AnyTwo, BASELINE, FORGED, [], Rewrap(LIMITS)).value;
  }

  /** A hand-made record can list a failing row before another row of its case: validation accepts it,
      it recommends the candidate, and it can be selected. No inspected profile lists its cases so. */
  lemma ForgedRowIgnored() returns (record: Comparison)
    ensures Select(AnyTwo, record, "b") == Ok("b")
    ensures |record.candidate.cases| == 2 && record.candidate.cases[0].failures == 7
    ensures !DistinctKeys(record.candidate.cases)
  {
    record := ForgedCompares();
    assert FORGED.cases[0].key == FORGED.cases[1].key;
  }
}
