/** Scoring one measurement series against another, and the paired comparison built on it. */
module Compare {
  import opened Results
  import opened Stats
  import opened Latency

  datatype Axis = Axis(before: real, after: real, rangeBefore: real, rangeAfter: real, band: real, stable: bool,
                       regression: bool, improvement: bool, ratio: real)

  /** Times that can be put on an axis: nonempty and positive, as validated series are. */
  predicate Timed(s: seq<real>) {
    s != [] && Positive(s)
  }

  function Larger(x: real, y: real): real { if x >= y then x else y }

  function BandOf(m: real, rangeBefore: real, rangeAfter: real, p: Policy): real {
    Larger(m * p.noiseFloor / 100.0, Larger(rangeBefore, rangeAfter))
  }

  predicate StableOf(m: real, n: real, rangeBefore: real, rangeAfter: real, p: Policy)
    requires m > 0.0 && n > 0.0
  {
    Larger(rangeBefore / m, rangeAfter / n) * 100.0 <= p.maximumSpread
  }

  function Quotient(m: real, n: real): real
    requires n > 0.0
  {
    m / n
  }

  /** The axis of two medians and two ranges. */
  function MakeAxis(m: real, n: real, rangeBefore: real, rangeAfter: real, p: Policy): Axis
    requires m > 0.0 && n > 0.0
  {
    var band := BandOf(m, rangeBefore, rangeAfter, p);
    Axis(m, n, rangeBefore, rangeAfter, band, StableOf(m, n, rangeBefore, rangeAfter, p),
         n - m > band, m - n > band, Quotient(m, n))
  }

  function AxisOf(before: seq<real>, after: seq<real>, p: Policy): Axis
    requires Timed(before) && Timed(after)
  {
    MedianPositive(before);
    MedianPositive(after);
    MakeAxis(Median(before), Median(after), Range(before), Range(after), p)
  }

  datatype AxisName = EndToEnd | GroupWall

  datatype Reason =
    | UnequalWork(id: string)
    | Noisy(id: string, axis: AxisName)
    | Regressed(id: string, axis: AxisName)
    | GainUnresolved
    | Drift(id: string, axis: AxisName)
    | Paired(of: Reason)

  datatype CaseReport = CaseReport(id: string, concurrency: int, e2e: Axis, wall: Axis, deltas: seq<real>)

  /** score = value to the power 1/root: the square root of the two geometric means. */
  datatype Score = Score(value: real, root: nat)

  datatype Verdict = Keep | Revert | Inconclusive

  datatype Comparison = Comparison(cases: seq<CaseReport>, score: Score, reasons: seq<Reason>, verdict: Verdict)

  function Reals(ns: seq<int>): (r: seq<real>)
    ensures |r| == |ns|
  {
    if ns == [] then [] else [ns[0] as real] + Reals(ns[1..])
  }

  function Abs(x: real): real { if x < 0.0 then -x else x }

  /** The change in generated work at one position of the group, in percent. */
  function Delta(a: seq<int>, b: seq<int>): real {
    if a == [] || b == [] || Median(Reals(a)) == 0.0 then 0.0
    else 100.0 * Abs(Median(Reals(a)) - Median(Reals(b))) / Median(Reals(a))
  }

  function Deltas(a: seq<seq<int>>, b: seq<seq<int>>): seq<real> {
    if |a| == 0 || |b| == 0 then [] else [Delta(a[0], b[0])] + Deltas(a[1..], b[1..])
  }

  predicate TimedRow(r: Row) {
    Timed(r.e2e) && Timed(r.walls)
  }

  predicate TimedRows(rows: seq<Row>) {
    forall i :: 0 <= i < |rows| ==> TimedRow(rows[i])
  }

  function ReportOf(was: Row, now: Row, p: Policy): CaseReport
    requires TimedRow(was) && TimedRow(now)
  {
    CaseReport(was.id, was.concurrency, AxisOf(was.e2e, now.e2e, p), AxisOf(was.walls, now.walls, p),
               Deltas(was.completions, now.completions))
  }

  function AxisReasons(id: string, name: AxisName, a: Axis): seq<Reason> {
    if !a.stable then [Noisy(id, name)] else if a.regression then [Regressed(id, name)] else []
  }

  predicate Unequal(deltas: seq<real>, p: Policy) {
    exists i :: 0 <= i < |deltas| && deltas[i] > p.maximumTokenDelta
  }

  function CaseReasons(r: CaseReport, p: Policy): seq<Reason> {
    (if Unequal(r.deltas, p) then [UnequalWork(r.id)] else [])
    + AxisReasons(r.id, EndToEnd, r.e2e) + AxisReasons(r.id, GroupWall, r.wall)
  }

  function Reasons(rs: seq<CaseReport>, p: Policy): seq<Reason> {
    if rs == [] then [] else Reasons(rs[..|rs| - 1], p) + CaseReasons(rs[|rs| - 1], p)
  }

  /** The speedup ratios of the cases of one concurrency level. */
  function Ratios(rs: seq<CaseReport>, c: int): seq<real> {
    if rs == [] then []
    else
      var last := rs[|rs| - 1];
      Ratios(rs[..|rs| - 1], c) + (if last.concurrency == c then [last.e2e.ratio] else [])
  }

  function ScoreOf(one: seq<real>, two: seq<real>): Score {
    Score(Times(Power(Product(one), |two|), Power(Product(two), |one|)), 2 * |one| * |two|)
  }

  /** (score - 1) * 100 < minimum gain, with both sides raised to the root. */
  predicate GainTooSmall(s: Score, p: Policy) {
    s.value < Power(1.0 + p.minimumGain / 100.0, s.root)
  }

  predicate Improves(rs: seq<CaseReport>) {
    exists i :: 0 <= i < |rs| && rs[i].e2e.improvement
  }

  predicate Doubtful(r: Reason) {
    r.UnequalWork? || r.Noisy?
  }

  function VerdictOf(reasons: seq<Reason>): Verdict {
    if exists i :: 0 <= i < |reasons| && Doubtful(reasons[i]) then Inconclusive
    else if reasons != [] then Revert
    else Keep
  }

  function Conclude(rs: seq<CaseReport>, reasons: seq<Reason>, one: seq<real>, two: seq<real>, p: Policy): Comparison {
    var score := ScoreOf(one, two);
    var all := reasons + (if GainTooSmall(score, p) || !Improves(rs) then [GainUnresolved] else []);
    Comparison(rs, score, all, VerdictOf(all))
  }

  function Find(rows: seq<Row>, id: string): Option<Row> {
    if rows == [] then None else if rows[0].id == id then Some(rows[0]) else Find(rows[1..], id)
  }

  lemma {:induction false} FoundIsThere(rows: seq<Row>, id: string)
    ensures Find(rows, id).Some? ==> Find(rows, id).value in rows && Find(rows, id).value.id == id
    ensures Find(rows, id).None? <==> forall i :: 0 <= i < |rows| ==> rows[i].id != id
  {
    if rows != [] {
      FoundIsThere(rows[1..], id);
      assert rows == [rows[0]] + rows[1..];
    }
  }

  /** Two rows describe the same case under the same contract. */
  predicate Matches(was: Row, now: Row) {
    && was.concurrency == now.concurrency && was.contract == now.contract
    && |was.e2e| == |now.e2e| && was.prompts == now.prompts
  }

  predicate Matched(was: Row, after: seq<Row>) {
    var found := Find(after, was.id);
    found.Some? && Matches(was, found.value)
  }

  predicate SameCases(before: seq<Row>, after: seq<Row>) {
    && (forall i :: 0 <= i < |before| ==> Matched(before[i], after))
    && (forall i :: 0 <= i < |after| ==> Find(before, after[i].id).Some?)
  }

  function Reports(before: seq<Row>, after: seq<Row>, p: Policy): (rs: seq<CaseReport>)
    requires TimedRows(before) && TimedRows(after)
    requires forall i :: 0 <= i < |before| ==> Find(after, before[i].id).Some?
    ensures |rs| == |before|
  {
    if before == [] then []
    else
      var was := before[|before| - 1];
      FoundIsThere(after, was.id);
      Reports(before[..|before| - 1], after, p) + [ReportOf(was, Find(after, was.id).value, p)]
  }

  /** The specification of a whole comparison of reduced series. */
  function CompareRows(before: seq<Row>, after: seq<Row>, p: Policy): Comparison
    requires TimedRows(before) && TimedRows(after) && SameCases(before, after)
  {
    var rs := Reports(before, after, p);
    Conclude(rs, Reasons(rs, p), Ratios(rs, 1), Ratios(rs, 2), p)
  }

  lemma RowTimed(c: Case, nonce: string, arm: Arm, p: Policy)
    requires ValidPolicy(p) && CaseOk(c, nonce, arm, p)
    ensures TimedRow(RowOf(c))
  {
    MeansPositive(c, |c.samples|, nonce, arm);
    assert c.samples[..|c.samples|] == c.samples;
  }

  lemma {:induction false} SumPositive(s: seq<real>)
    requires Positive(s)
    ensures Sum(s) >= 0.0 && (s != [] ==> Sum(s) > 0.0)
  {
    if s != [] {
      SumPositive(s[..|s| - 1]);
    }
  }

  lemma FitPositive(c: Case, k: nat, nonce: string, arm: Arm)
    requires k < |c.samples| && SampleFits(c, k, nonce, arm) && (c.concurrency == 1 || c.concurrency == 2)
    ensures Mean(c.samples[k].times) > 0.0 && c.samples[k].wall > 0.0
  {
    SumPositive(c.samples[k].times);
  }

  lemma {:induction false} MeansPositive(c: Case, n: nat, nonce: string, arm: Arm)
    requires n <= |c.samples| && SamplesFit(c, n, nonce, arm) && (c.concurrency == 1 || c.concurrency == 2)
    ensures Positive(Means(c.samples[..n])) && Positive(Walls(c.samples[..n]))
  {
    hide SampleFits, Mean;
    if n > 0 {
      FitPositive(c, n - 1, nonce, arm);
      MeansPositive(c, n - 1, nonce, arm);
      assert c.samples[..n][..n - 1] == c.samples[..n - 1];
    }
  }

  lemma SeriesTimed(r: Record, p: Policy)
    requires ValidPolicy(p) && ValidSeries(r, p)
    ensures TimedRows(Rows(r.cases))
  {
    forall i | 0 <= i < |r.cases|
      ensures TimedRow(Rows(r.cases)[i])
    {
      RowTimed(r.cases[i], r.observation, r.arm, p);
    }
  }

  /** What one more report adds to the reasons and the ratios. */
  lemma OneMoreReport(rs: seq<CaseReport>, r: CaseReport, p: Policy)
    ensures Reasons(rs + [r], p) == Reasons(rs, p) + CaseReasons(r, p)
    ensures forall c :: Ratios(rs + [r], c) == Ratios(rs, c) + (if r.concurrency == c then [r.e2e.ratio] else [])
  {
    assert (rs + [r])[..|rs|] == rs;
  }

  predicate DistinctRows(rows: seq<Row>) {
    forall i, j :: 0 <= i < j < |rows| ==> rows[i].id != rows[j].id
  }

  lemma {:induction false} FindAt(rows: seq<Row>, i: nat)
    requires DistinctRows(rows) && i < |rows|
    ensures Find(rows, rows[i].id) == Some(rows[i])
  {
    if i > 0 {
      assert rows[0].id != rows[i].id;
      FindAt(rows[1..], i - 1);
    }
  }

  lemma DistinctCasesRows(cases: seq<Case>)
    requires DistinctCases(cases)
    ensures DistinctRows(Rows(cases))
  {
  }

  predicate MatchedUpTo(before: seq<Row>, n: int, after: seq<Row>)
    requires 0 <= n <= |before|
  {
    forall k :: 0 <= k < n ==> Matched(before[k], after)
  }

  lemma OneMoreMatched(before: seq<Row>, i: nat, after: seq<Row>, p: Policy)
    requires i < |before| && MatchedUpTo(before, i, after) && TimedRows(before) && TimedRows(after)
    requires forall k :: 0 <= k < |before| ==> Find(after, before[k].id).Some?
    ensures MatchedUpTo(before, i + 1, after) <==> Matched(before[i], after)
    ensures TimedRow(before[i]) && TimedRow(Find(after, before[i].id).value)
    ensures Reports(before[..i + 1], after, p)
         == Reports(before[..i], after, p) + [ReportOf(before[i], Find(after, before[i].id).value, p)]
  {
    FoundIsThere(after, before[i].id);
    assert before[..i + 1][..i] == before[..i];
    forall k | 0 <= k < i + 1 && Matched(before[i], after)
      ensures Matched(before[k], after)
    {
      if k < i {
        assert Matched(before[k], after);
      }
    }
  }

  /** The comparison of two series with the same case coverage. */
  method CompareLoop(before: seq<Row>, after: seq<Row>, p: Policy) returns (out: Result<Comparison>)
    requires TimedRows(before) && TimedRows(after)
    ensures out.Ok? <==> SameCases(before, after)
    ensures out.Ok? ==> out.value == CompareRows(before, after, p)
  {
    if exists i :: 0 <= i < |after| && Find(before, after[i].id).None? { return Refused; }
    if exists i :: 0 <= i < |before| && Find(after, before[i].id).None? {
      assert exists i :: 0 <= i < |before| && !Matched(before[i], after);
      return Refused;
    }
    out := Accumulate(before, after, p);
  }

  /** One axis: medians, ranges, the noise band, and what lies beyond it. */
  method MeasureAxis(before: seq<real>, after: seq<real>, p: Policy) returns (axis: Axis)
    requires Timed(before) && Timed(after)
    ensures axis == AxisOf(before, after, p)
  {
    hide Median, Max, Min, MakeAxis;
    MedianPositive(before);
    MedianPositive(after);
    axis := CompareMedians(Median(before), Median(after), Max(before) - Min(before), Max(after) - Min(after), p);
  }

  method CompareMedians(m: real, n: real, spread: real, other: real, p: Policy) returns (axis: Axis)
    requires m > 0.0 && n > 0.0
    ensures axis == MakeAxis(m, n, spread, other, p)
  {
    hide BandOf, StableOf;
    var band := MeasureBand(m, spread, other, p);
    var stable := MeasureSpread(m, n, spread, other, p);
    axis := Axis(m, n, spread, other, band, stable, n > m + band, m > n + band, m / n);
  }

  method MeasureBand(m: real, spread: real, other: real, p: Policy) returns (band: real)
    ensures band == BandOf(m, spread, other, p)
  {
    var floor := m * p.noiseFloor / 100.0;
    band := floor;
    if band < spread { band := spread; }
    if band < other { band := other; }
    assert band == Larger(m * p.noiseFloor / 100.0, Larger(spread, other)) == BandOf(m, spread, other, p);
  }

  method MeasureSpread(m: real, n: real, spread: real, other: real, p: Policy) returns (stable: bool)
    requires m > 0.0 && n > 0.0
    ensures stable == StableOf(m, n, spread, other, p)
  {
    stable := spread / m * 100.0 <= p.maximumSpread && other / n * 100.0 <= p.maximumSpread;
  }

  method MeasureChange(a: seq<int>, b: seq<int>) returns (change: real)
    ensures change == Delta(a, b)
  {
    hide Median, Reals;
    change := 0.0;
    if |a| > 0 && |b| > 0 {
      var m, n := Median(Reals(a)), Median(Reals(b));
      if m != 0.0 { change := 100.0 * (if m >= n then m - n else n - m) / m; }
    }
  }

  /** The changes in generated work, position by position. */
  method MeasureWork(a: seq<seq<int>>, b: seq<seq<int>>) returns (deltas: seq<real>)
    ensures deltas == Deltas(a, b)
  {
    hide Delta;
    deltas := [];
    var i := 0;
    while i < |a| && i < |b|
      invariant 0 <= i <= |a| && i <= |b| && deltas + Deltas(a[i..], b[i..]) == Deltas(a, b)
    {
      var change := MeasureChange(a[i], b[i]);
      assert a[i..][1..] == a[i + 1..] && b[i..][1..] == b[i + 1..];
      deltas, i := deltas + [change], i + 1;
    }
    assert deltas + [] == deltas;
  }

  method MakeReport(was: Row, now: Row, p: Policy) returns (report: CaseReport)
    requires TimedRow(was) && TimedRow(now)
    ensures report == ReportOf(was, now, p)
  {
    var e2e := MeasureAxis(was.e2e, now.e2e, p);
    var wall := MeasureAxis(was.walls, now.walls, p);
    var deltas := MeasureWork(was.completions, now.completions);
    report := CaseReport(was.id, was.concurrency, e2e, wall, deltas);
  }

  /** The reasons of one case: unequal work, then each axis noisy or else regressed. */
  method ListReasons(r: CaseReport, p: Policy) returns (reasons: seq<Reason>)
    ensures reasons == CaseReasons(r, p)
  {
    var unequal, i := false, 0;
    while i < |r.deltas|
      invariant 0 <= i <= |r.deltas|
      invariant unequal <==> exists k :: 0 <= k < i && r.deltas[k] > p.maximumTokenDelta
    {
      if p.maximumTokenDelta < r.deltas[i] { unequal := true; }
      i := i + 1;
    }
    reasons := if unequal then [UnequalWork(r.id)] else [];
    if !r.e2e.stable {
      reasons := reasons + [Noisy(r.id, EndToEnd)];
    } else if r.e2e.regression {
      reasons := reasons + [Regressed(r.id, EndToEnd)];
    }
    if !r.wall.stable {
      reasons := reasons + [Noisy(r.id, GroupWall)];
    } else if r.wall.regression {
      reasons := reasons + [Regressed(r.id, GroupWall)];
    }
  }

  /** The score, whether its gain is enough and resolved, and the verdict. */
  method Finish(rs: seq<CaseReport>, reasons: seq<Reason>, one: seq<real>, two: seq<real>, p: Policy)
    returns (result: Comparison)
    ensures result == Conclude(rs, reasons, one, two, p)
  {
    hide ScoreOf, Power, Improves, VerdictOf;
    var score, all := ScoreOf(one, two), reasons;
    var resolved := FindImprovement(rs);
    var short := score.value < Power(1.0 + p.minimumGain / 100.0, score.root);
    assert short == GainTooSmall(score, p);
    if !resolved || short { all := all + [GainUnresolved]; }
    assert all + [] == all;
    var verdict := FindVerdict(all);
    result := Comparison(rs, score, all, verdict);
  }

  method FindImprovement(rs: seq<CaseReport>) returns (resolved: bool)
    ensures resolved == Improves(rs)
  {
    var i := 0;
    resolved := false;
    while i < |rs|
      invariant 0 <= i <= |rs| && (resolved <==> exists k :: 0 <= k < i && rs[k].e2e.improvement)
    {
      if rs[i].e2e.improvement { resolved := true; }
      i := i + 1;
    }
  }

  /** Any doubt is inconclusive, any other reason a revert. */
  method FindVerdict(reasons: seq<Reason>) returns (verdict: Verdict)
    ensures verdict == VerdictOf(reasons)
  {
    var doubt, i := false, 0;
    while i < |reasons|
      invariant 0 <= i <= |reasons| && (doubt <==> exists k :: 0 <= k < i && Doubtful(reasons[k]))
    {
      if reasons[i].UnequalWork? || reasons[i].Noisy? { doubt := true; }
      i := i + 1;
    }
    verdict := if doubt then Inconclusive else if |reasons| > 0 then Revert else Keep;
  }

  /** The comparison loop: reports, reasons and ratios are accumulated case by case. */
  method Accumulate(before: seq<Row>, after: seq<Row>, p: Policy) returns (out: Result<Comparison>)
    requires TimedRows(before) && TimedRows(after)
    requires forall k :: 0 <= k < |before| ==> Find(after, before[k].id).Some?
    ensures out.Ok? <==> MatchedUpTo(before, |before|, after)
    ensures out.Ok? ==> var rs := Reports(before, after, p);
                        out.value == Conclude(rs, Reasons(rs, p), Ratios(rs, 1), Ratios(rs, 2), p)
  {
    var rs: seq<CaseReport>, reasons: seq<Reason>, one: seq<real>, two: seq<real>, i := [], [], [], [], 0;
    while i < |before|
      invariant 0 <= i <= |before|
      invariant MatchedUpTo(before, i, after)
      invariant rs == Reports(before[..i], after, p)
      invariant reasons == Reasons(rs, p) && one == Ratios(rs, 1) && two == Ratios(rs, 2)
    {
      OneMoreMatched(before, i, after, p);
      var now := Find(after, before[i].id).value;
      var was := before[i];
      if was.concurrency != now.concurrency || was.contract != now.contract || |was.e2e| != |now.e2e|
         || was.prompts != now.prompts {
        return Refused;
      }
      var report := MakeReport(was, now, p);
      OneMoreReport(rs, report, p);
      var more := ListReasons(report, p);
      rs, reasons := rs + [report], reasons + more;
      if report.concurrency == 1 {
        one := one + [report.e2e.ratio];
      } else if report.concurrency == 2 {
        two := two + [report.e2e.ratio];
      }
      i := i + 1;
    }
    assert before[..i] == before;
    var concluded := Finish(rs, reasons, one, two, p);
    return Ok(concluded);
  }

  predicate Comparable(b: Record, c: Record, p: Policy) {
    && ValidPolicy(p) && ValidSeries(b, p) && ValidSeries(c, p)
    && Members(SampleIds(b.cases)) * Members(SampleIds(c.cases)) == {}
    && b.selection == c.selection && b.runtime == c.runtime && b.workload == c.workload
    && SameCases(Rows(b.cases), Rows(c.cases))
  }

  /** The comparison of two records that can be compared. */
  function Compared(b: Record, c: Record, p: Policy): Comparison
    requires Comparable(b, c, p)
  {
    SeriesTimed(b, p);
    SeriesTimed(c, p);
    CompareRows(Rows(b.cases), Rows(c.cases), p)
  }

  /** Comparing two measurement records. */
  method CompareRecords(b: Record, c: Record, p: Policy) returns (out: Result<Comparison>)
    ensures out.Ok? <==> Comparable(b, c, p)
    ensures out.Ok? ==> out.value == Compared(b, c, p)
  {
    var sound := CheckPolicy(p);
    if !sound { return Refused; }
    var before := Series(b, p);
    if before.Refused? { return Refused; }
    var after := Series(c, p);
    if after.Refused? { return Refused; }
    if before.value.1 * after.value.1 != {} { return Refused; }
    if b.selection != c.selection || b.runtime != c.runtime || b.workload != c.workload { return Refused; }
    SeriesTimed(b, p);
    SeriesTimed(c, p);
    out := CompareLoop(before.value.0, after.value.0, p);
  }
}
