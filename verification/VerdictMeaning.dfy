/** Every verdict of the comparator, said of medians, ranges, generated tokens and the score. */
module VerdictMeaning {
  import opened Results
  import opened Stats
  import opened Latency
  import opened Compare
  import opened Scores
  import opened Verdicts
  import opened RecordOrder

  // ----- one axis, and one case

  /** A range is more of its median than the spread cap allows. */
  predicate Spread(times: seq<real>, p: Policy)
    requires Timed(times)
  {
    MedianPositive(times);
    Range(times) / Median(times) * 100.0 > p.maximumSpread
  }

  /** The second median lies above the first by more than the noise floor and both ranges. */
  predicate Above(before: seq<real>, after: seq<real>, floor: real, p: Policy)
    requires Timed(before) && Timed(after)
  {
    var rise := Median(after) - Median(before);
    rise > floor * p.noiseFloor / 100.0 && rise > Range(before) && rise > Range(after)
  }

  predicate Slower(before: seq<real>, after: seq<real>, p: Policy)
    requires Timed(before) && Timed(after)
  {
    Above(before, after, Median(before), p)
  }

  predicate Faster(before: seq<real>, after: seq<real>, p: Policy)
    requires Timed(before) && Timed(after)
  {
    Above(after, before, Median(before), p)
  }

  lemma AxisMeans(before: seq<real>, after: seq<real>, p: Policy)
    requires Timed(before) && Timed(after)
    ensures var a := AxisOf(before, after, p);
            && (!a.stable <==> Spread(before, p) || Spread(after, p))
            && (a.regression <==> Slower(before, after, p)) && (a.improvement <==> Faster(before, after, p))
            && a.before == Median(before) && a.after == Median(after)
            && (Abs(a.after - a.before) > a.band <==> Slower(before, after, p) || Faster(before, after, p))
  {
    hide Median, Range, StableOf, BandOf, Compare.Quotient, Larger;
    MedianPositive(before);
    MedianPositive(after);
    MadeAxisMeans(Median(before), Median(after), Range(before), Range(after), p);
  }

  /** More than the largest of three is more than each. */
  lemma MoreThanBand(x: real, m: real, before: real, after: real, p: Policy)
    ensures x > BandOf(m, before, after, p) <==> x > m * p.noiseFloor / 100.0 && x > before && x > after
  {
  }

  lemma NotStable(m: real, n: real, before: real, after: real, p: Policy)
    requires m > 0.0 && n > 0.0
    ensures !StableOf(m, n, before, after, p) <==>
            before / m * 100.0 > p.maximumSpread || after / n * 100.0 > p.maximumSpread
  {
  }

  lemma MadeAxisMeans(m: real, n: real, before: real, after: real, p: Policy)
    requires m > 0.0 && n > 0.0 && before >= 0.0 && after >= 0.0
    ensures var a := MakeAxis(m, n, before, after, p);
            && (!a.stable <==> before / m * 100.0 > p.maximumSpread || after / n * 100.0 > p.maximumSpread)
            && (a.regression <==> n - m > m * p.noiseFloor / 100.0 && n - m > before && n - m > after)
            && (a.improvement <==> m - n > m * p.noiseFloor / 100.0 && m - n > before && m - n > after)
            && (Abs(a.after - a.before) > a.band <==> a.regression || a.improvement)
  {
    hide StableOf, BandOf, Compare.Quotient;
    NotStable(m, n, before, after, p);
    MoreThanBand(n - m, m, before, after, p);
    MoreThanBand(m - n, m, before, after, p);
    BandNotNegative(m, before, after, p);
  }

  lemma BandNotNegative(m: real, before: real, after: real, p: Policy)
    requires before >= 0.0
    ensures BandOf(m, before, after, p) >= 0.0
  {
  }

  /** The generated tokens of one position differ in the median by more than the cap. */
  predicate TokensMoved(a: seq<int>, b: seq<int>, p: Policy) {
    && a != [] && b != [] && Median(Reals(a)) != 0.0
    && (Median(Reals(a)) - Median(Reals(b)) > 0.0 ==>
          100.0 * (Median(Reals(a)) - Median(Reals(b))) / Median(Reals(a)) > p.maximumTokenDelta)
    && (Median(Reals(a)) - Median(Reals(b)) <= 0.0 ==>
          100.0 * (Median(Reals(b)) - Median(Reals(a))) / Median(Reals(a)) > p.maximumTokenDelta)
  }

  predicate WorkMoved(a: seq<seq<int>>, b: seq<seq<int>>, p: Policy) {
    exists k :: 0 <= k < |a| && k < |b| && TokensMoved(a[k], b[k], p)
  }

  lemma DeltaMeans(a: seq<int>, b: seq<int>, p: Policy)
    requires p.maximumTokenDelta >= 0.0
    ensures Delta(a, b) > p.maximumTokenDelta <==> TokensMoved(a, b, p)
  {
  }

  lemma {:induction false} DeltasAt(a: seq<seq<int>>, b: seq<seq<int>>, k: nat)
    ensures |Deltas(a, b)| == if |a| <= |b| then |a| else |b|
    ensures k < |a| && k < |b| ==> Deltas(a, b)[k] == Delta(a[k], b[k])
  {
    if a != [] && b != [] { DeltasAt(a[1..], b[1..], if k == 0 then 0 else k - 1); }
  }

  lemma UnequalMeans(a: seq<seq<int>>, b: seq<seq<int>>, p: Policy)
    requires p.maximumTokenDelta >= 0.0
    ensures Unequal(Deltas(a, b), p) <==> WorkMoved(a, b, p)
  {
    DeltasAt(a, b, 0);
    forall k | 0 <= k < |a| && k < |b|
      ensures Deltas(a, b)[k] > p.maximumTokenDelta <==> TokensMoved(a[k], b[k], p)
    {
      DeltasAt(a, b, k);
      DeltaMeans(a[k], b[k], p);
    }
  }

  /** A case cannot be judged: an axis is spread on either side, or the generated work changed. */
  predicate Unsure(was: Row, now: Row, p: Policy)
    requires TimedRow(was) && TimedRow(now)
  {
    || Spread(was.e2e, p) || Spread(now.e2e, p) || Spread(was.walls, p) || Spread(now.walls, p)
    || WorkMoved(was.completions, now.completions, p)
  }

  predicate Worse(was: Row, now: Row, p: Policy)
    requires TimedRow(was) && TimedRow(now)
  {
    Slower(was.e2e, now.e2e, p) || Slower(was.walls, now.walls, p)
  }

  predicate HasDoubt(rs: seq<Reason>) { exists i :: 0 <= i < |rs| && Doubtful(rs[i]) }

  lemma DoubtJoin(a: seq<Reason>, b: seq<Reason>)
    ensures HasDoubt(a + b) <==> HasDoubt(a) || HasDoubt(b)
  {
    if HasDoubt(a) {
      var i :| 0 <= i < |a| && Doubtful(a[i]);
      assert (a + b)[i] == a[i];
    }
    if HasDoubt(b) {
      var i :| 0 <= i < |b| && Doubtful(b[i]);
      assert (a + b)[|a| + i] == b[i];
    }
  }

  lemma AxisDoubt(id: string, name: AxisName, a: Axis)
    ensures HasDoubt(AxisReasons(id, name, a)) <==> !a.stable
    ensures AxisReasons(id, name, a) == [] <==> a.stable && !a.regression
  {
    if !a.stable { assert Doubtful(AxisReasons(id, name, a)[0]); }
  }

  /** The reasons of one case: a doubt exactly when it cannot be judged, none at all exactly when it
      can be and is no worse. */
  lemma CaseMeans(was: Row, now: Row, p: Policy)
    requires TimedRow(was) && TimedRow(now) && p.maximumTokenDelta >= 0.0
    ensures var rs := CaseReasons(ReportOf(was, now, p), p);
            && (HasDoubt(rs) <==> Unsure(was, now, p))
            && (rs == [] <==> !Unsure(was, now, p) && !Worse(was, now, p))
  {
    var r := ReportOf(was, now, p);
    AxisMeans(was.e2e, now.e2e, p);
    AxisMeans(was.walls, now.walls, p);
    UnequalMeans(was.completions, now.completions, p);
    AxisDoubt(r.id, EndToEnd, r.e2e);
    AxisDoubt(r.id, GroupWall, r.wall);
    var work := if Unequal(r.deltas, p) then [UnequalWork(r.id)] else [];
    assert HasDoubt(work) <==> Unequal(r.deltas, p) by {
      if Unequal(r.deltas, p) { assert Doubtful(work[0]); }
    }
    DoubtJoin(work, AxisReasons(r.id, EndToEnd, r.e2e));
    DoubtJoin(work + AxisReasons(r.id, EndToEnd, r.e2e), AxisReasons(r.id, GroupWall, r.wall));
  }

  // ----- all cases

  predicate AnyReport(rs: seq<CaseReport>, doubt: bool, p: Policy) {
    exists i :: 0 <= i < |rs| && (if doubt then HasDoubt(CaseReasons(rs[i], p)) else CaseReasons(rs[i], p) != [])
  }

  lemma {:induction false} ReasonsMean(rs: seq<CaseReport>, p: Policy)
    ensures HasDoubt(Reasons(rs, p)) <==> AnyReport(rs, true, p)
    ensures Reasons(rs, p) != [] <==> AnyReport(rs, false, p)
  {
    if rs != [] {
      var front, last := rs[..|rs| - 1], rs[|rs| - 1];
      ReasonsMean(front, p);
      DoubtJoin(Reasons(front, p), CaseReasons(last, p));
      AnyNext(front, last, true, p);
      AnyNext(front, last, false, p);
      assert rs == front + [last];
    }
  }

  lemma AnyNext(front: seq<CaseReport>, last: CaseReport, doubt: bool, p: Policy)
    ensures AnyReport(front + [last], doubt, p) <==>
            AnyReport(front, doubt, p) || AnyReport([last], doubt, p)
    ensures AnyReport([last], doubt, p) <==> if doubt then HasDoubt(CaseReasons(last, p)) else CaseReasons(last, p) != []
  {
    var all := front + [last];
    assert all[|front|] == last && [last][0] == last;
    forall i | 0 <= i < |front| ensures all[i] == front[i] {}
  }

  /** The row of the other series with the same case. */
  function Partner(rows: seq<Row>, was: Row): Row
    requires Find(rows, was.id).Some?
  {
    Find(rows, was.id).value
  }

  predicate Comparables(before: seq<Row>, after: seq<Row>) {
    TimedRows(before) && TimedRows(after) && SameCases(before, after)
  }

  lemma PartnersTimed(before: seq<Row>, after: seq<Row>)
    requires Comparables(before, after)
    ensures forall i :: 0 <= i < |before| ==> Find(after, before[i].id).Some?
    ensures forall i :: 0 <= i < |before| ==> TimedRow(before[i]) && TimedRow(Partner(after, before[i]))
  {
    forall i | 0 <= i < |before|
      ensures Find(after, before[i].id).Some? && TimedRow(Partner(after, before[i]))
    {
      assert Matched(before[i], after);
      FoundIsThere(after, before[i].id);
    }
  }

  predicate SomeUnsure(before: seq<Row>, after: seq<Row>, p: Policy)
    requires Comparables(before, after)
  {
    PartnersTimed(before, after);
    exists i :: 0 <= i < |before| && Unsure(before[i], Partner(after, before[i]), p)
  }

  predicate SomeWorse(before: seq<Row>, after: seq<Row>, p: Policy)
    requires Comparables(before, after)
  {
    PartnersTimed(before, after);
    exists i :: 0 <= i < |before| && Worse(before[i], Partner(after, before[i]), p)
  }

  predicate SomeFaster(before: seq<Row>, after: seq<Row>, p: Policy)
    requires Comparables(before, after)
  {
    PartnersTimed(before, after);
    exists i :: 0 <= i < |before| && Faster(before[i].e2e, Partner(after, before[i]).e2e, p)
  }

  /** How many times faster the cases of one concurrency level are, by their medians. */
  function Speedups(before: seq<Row>, after: seq<Row>, c: int): seq<real>
    requires Comparables(before, after)
  {
    PartnersTimed(before, after);
    SpeedupsOf(before, after, c)
  }

  function SpeedupsOf(before: seq<Row>, after: seq<Row>, c: int): seq<real>
    requires forall i :: 0 <= i < |before| ==> Find(after, before[i].id).Some?
    requires forall i :: 0 <= i < |before| ==> TimedRow(before[i]) && TimedRow(Partner(after, before[i]))
  {
    if before == [] then []
    else
      var last := |before| - 1;
      var was := before[last];
      assert TimedRow(before[last]) && TimedRow(Partner(after, before[last]));
      MedianPositive(Partner(after, was).e2e);
      SpeedupsOf(before[..|before| - 1], after, c)
      + if was.concurrency == c then [Median(was.e2e) / Median(Partner(after, was).e2e)] else []
  }

  lemma {:induction false} RatiosAre(before: seq<Row>, after: seq<Row>, p: Policy, c: int)
    requires TimedRows(before) && TimedRows(after)
    requires forall i :: 0 <= i < |before| ==> Find(after, before[i].id).Some?
    requires forall i :: 0 <= i < |before| ==> TimedRow(before[i]) && TimedRow(Partner(after, before[i]))
    ensures Ratios(Reports(before, after, p), c) == SpeedupsOf(before, after, c)
  {
    if before != [] {
      var front, was := before[..|before| - 1], before[|before| - 1];
      RatiosAre(front, after, p, c);
      OneMoreReport(Reports(front, after, p), ReportOf(was, Partner(after, was), p), p);
    }
  }

  predicate GainShort(before: seq<Row>, after: seq<Row>, p: Policy)
    requires Comparables(before, after)
  {
    GainTooSmall(ScoreOf(Speedups(before, after, 1), Speedups(before, after, 2)), p)
  }

  lemma ReportMeans(before: seq<Row>, after: seq<Row>, p: Policy, i: nat)
    requires Comparables(before, after) && p.maximumTokenDelta >= 0.0 && i < |before|
    requires forall k :: 0 <= k < |before| ==> Find(after, before[k].id).Some?
    requires TimedRow(before[i]) && TimedRow(Partner(after, before[i]))
    ensures var r, was, now := Reports(before, after, p)[i], before[i], Partner(after, before[i]);
            && (HasDoubt(CaseReasons(r, p)) <==> Unsure(was, now, p))
            && (CaseReasons(r, p) != [] <==> Unsure(was, now, p) || Worse(was, now, p))
            && (r.e2e.improvement <==> Faster(was.e2e, now.e2e, p))
  {
    hide HasDoubt, CaseReasons, Unsure, Worse, Faster, AxisOf, Deltas;
    ReportAt(before, after, p, i);
    CaseMeans(before[i], Partner(after, before[i]), p);
    AxisMeans(before[i].e2e, Partner(after, before[i]).e2e, p);
  }

  /** What one report says agrees with its two rows. */
  predicate Says(r: CaseReport, was: Row, now: Row, p: Policy)
    requires TimedRow(was) && TimedRow(now)
  {
    && (HasDoubt(CaseReasons(r, p)) <==> Unsure(was, now, p))
    && (CaseReasons(r, p) != [] <==> Unsure(was, now, p) || Worse(was, now, p))
    && (r.e2e.improvement <==> Faster(was.e2e, now.e2e, p))
  }

  predicate AllSay(rs: seq<CaseReport>, before: seq<Row>, after: seq<Row>, p: Policy)
    requires Comparables(before, after) && |rs| == |before|
  {
    PartnersTimed(before, after);
    forall i :: 0 <= i < |rs| ==> Says(rs[i], before[i], Partner(after, before[i]), p)
  }

  lemma ReportsSay(before: seq<Row>, after: seq<Row>, p: Policy)
    requires Comparables(before, after) && p.maximumTokenDelta >= 0.0
    requires forall i :: 0 <= i < |before| ==> Find(after, before[i].id).Some?
    ensures AllSay(Reports(before, after, p), before, after, p)
  {
    hide HasDoubt, CaseReasons, Unsure, Worse, Faster, SameCases, Find, Reports;
    PartnersTimed(before, after);
    forall i | 0 <= i < |before|
      ensures Says(Reports(before, after, p)[i], before[i], Partner(after, before[i]), p)
    {
      ReportMeans(before, after, p, i);
    }
  }

  lemma DoubtMeans(rs: seq<CaseReport>, before: seq<Row>, after: seq<Row>, p: Policy)
    requires Comparables(before, after) && |rs| == |before| && AllSay(rs, before, after, p)
    ensures AnyReport(rs, true, p) <==> SomeUnsure(before, after, p)
  {
    hide HasDoubt, CaseReasons, Unsure, Worse, Faster, Comparables, Find;
    PartnersTimed(before, after);
    if AnyReport(rs, true, p) {
      var i :| 0 <= i < |rs| && HasDoubt(CaseReasons(rs[i], p));
      assert Says(rs[i], before[i], Partner(after, before[i]), p);
    }
    if SomeUnsure(before, after, p) {
      var i :| 0 <= i < |before| && Unsure(before[i], Partner(after, before[i]), p);
      assert Says(rs[i], before[i], Partner(after, before[i]), p);
    }
  }

  lemma ReasonMeans(rs: seq<CaseReport>, before: seq<Row>, after: seq<Row>, p: Policy)
    requires Comparables(before, after) && |rs| == |before| && AllSay(rs, before, after, p)
    ensures AnyReport(rs, false, p) <==> SomeUnsure(before, after, p) || SomeWorse(before, after, p)
  {
    hide HasDoubt, CaseReasons, Unsure, Worse, Faster, Comparables, Find;
    PartnersTimed(before, after);
    if AnyReport(rs, false, p) {
      var i :| 0 <= i < |rs| && CaseReasons(rs[i], p) != [];
      assert Says(rs[i], before[i], Partner(after, before[i]), p);
    }
    if SomeUnsure(before, after, p) {
      var i :| 0 <= i < |before| && Unsure(before[i], Partner(after, before[i]), p);
      assert Says(rs[i], before[i], Partner(after, before[i]), p);
    }
    if SomeWorse(before, after, p) {
      var i :| 0 <= i < |before| && Worse(before[i], Partner(after, before[i]), p);
      assert Says(rs[i], before[i], Partner(after, before[i]), p);
    }
  }

  lemma FasterMeans(rs: seq<CaseReport>, before: seq<Row>, after: seq<Row>, p: Policy)
    requires Comparables(before, after) && |rs| == |before| && AllSay(rs, before, after, p)
    ensures Improves(rs) <==> SomeFaster(before, after, p)
  {
    hide HasDoubt, CaseReasons, Unsure, Worse, Faster, Comparables, Find;
    PartnersTimed(before, after);
    if Improves(rs) {
      var i :| 0 <= i < |rs| && rs[i].e2e.improvement;
      assert Says(rs[i], before[i], Partner(after, before[i]), p);
    }
    if SomeFaster(before, after, p) {
      var i :| 0 <= i < |before| && Faster(before[i].e2e, Partner(after, before[i]).e2e, p);
      assert Says(rs[i], before[i], Partner(after, before[i]), p);
    }
  }

  /** The verdict: inconclusive when some case cannot be judged; else a revert when a case is worse, the
      balanced gain is too small, or no case is faster beyond its band; else a keep. */
  lemma VerdictWhen(before: seq<Row>, after: seq<Row>, p: Policy)
    requires Comparables(before, after) && p.maximumTokenDelta >= 0.0
    ensures CompareRows(before, after, p).score == ScoreOf(Speedups(before, after, 1), Speedups(before, after, 2))
    ensures CompareRows(before, after, p).verdict ==
            if SomeUnsure(before, after, p) then Inconclusive
            else if SomeWorse(before, after, p) || GainShort(before, after, p) || !SomeFaster(before, after, p) then Revert
            else Keep
  {
    hide HasDoubt, AnyReport, Improves, SomeUnsure, SomeWorse, SomeFaster, ScoreOf, GainTooSmall, Ratios, SpeedupsOf,
         Reasons, VerdictOf;
    PartnersTimed(before, after);
    var rs := Reports(before, after, p);
    RatiosAre(before, after, p, 1);
    RatiosAre(before, after, p, 2);
    ReportsSay(before, after, p);
    DoubtMeans(rs, before, after, p);
    ReasonMeans(rs, before, after, p);
    FasterMeans(rs, before, after, p);
    ReasonsMean(rs, p);
    ConcludeMeans(rs, p);
  }

  lemma ConcludeMeans(rs: seq<CaseReport>, p: Policy)
    ensures var c := Conclude(rs, Reasons(rs, p), Ratios(rs, 1), Ratios(rs, 2), p);
            c.verdict == if HasDoubt(Reasons(rs, p)) then Inconclusive
                         else if Reasons(rs, p) != [] || GainTooSmall(c.score, p) || !Improves(rs) then Revert
                         else Keep
  {
    var c := Conclude(rs, Reasons(rs, p), Ratios(rs, 1), Ratios(rs, 2), p);
    var more := if GainTooSmall(c.score, p) || !Improves(rs) then [GainUnresolved] else [];
    DoubtJoin(Reasons(rs, p), more);
    assert !HasDoubt(more);
  }

  /** With g1 and g2 the geometric means of the two levels' speedups, and s the square root of their product,
      the gain falls short exactly when (s - 1) * 100 is below the policy's minimum. */
  lemma GainShortWhen(before: seq<Row>, after: seq<Row>, p: Policy, g1: real, g2: real, s: real)
    requires Comparables(before, after) && p.minimumGain > 0.0 && g1 > 0.0 && g2 > 0.0 && s > 0.0
    requires Speedups(before, after, 1) != [] && Speedups(before, after, 2) != []
    requires Power(g1, |Speedups(before, after, 1)|) == Product(Speedups(before, after, 1))
    requires Power(g2, |Speedups(before, after, 2)|) == Product(Speedups(before, after, 2))
    requires Times(s, s) == Times(g1, g2)
    ensures GainShort(before, after, p) <==> (s - 1.0) * 100.0 < p.minimumGain
  {
    ScoreMeaning(Speedups(before, after, 1), Speedups(before, after, 2), g1, g2, s, p);
  }

  // ----- records

  /** The verdict between two records. */
  lemma RecordVerdictWhen(b: Record, c: Record, p: Policy)
    requires Comparable(b, c, p)
    ensures Comparables(Rows(b.cases), Rows(c.cases))
    ensures var before, after := Rows(b.cases), Rows(c.cases);
            Compared(b, c, p).verdict ==
            if SomeUnsure(before, after, p) then Inconclusive
            else if SomeWorse(before, after, p) || GainShort(before, after, p) || !SomeFaster(before, after, p) then Revert
            else Keep
  {
    hide SomeUnsure, SomeWorse, SomeFaster, GainShort, ValidSeries, SameCases, TimedRows, Rows, CompareRows;
    SeriesTimed(b, p);
    SeriesTimed(c, p);
    VerdictWhen(Rows(b.cases), Rows(c.cases), p);
  }

  /** The row of a valid case: a single request's time or the mean of the pair's, the group's wall time, the
      prompt counts of the case, and the generated tokens position by position. */
  lemma RowMeans(c: Case, nonce: string, arm: Arm, p: Policy, k: nat)
    requires CaseOk(c, nonce, arm, p) && k < |c.samples|
    ensures var row, s := RowOf(c), c.samples[k];
            && row.id == c.id && row.concurrency == c.concurrency && row.contract == c.contract && row.prompts == s.prompt
            && |row.e2e| == |row.walls| == |c.samples| && row.walls[k] == s.wall
            && |row.completions| == |s.times| == |s.completion| == c.concurrency
            && (c.concurrency == 1 ==> row.e2e[k] == s.times[0] && row.completions[0][k] == s.completion[0])
            && (c.concurrency == 2 ==> && row.e2e[k] == (s.times[0] + s.times[1]) / 2.0
                                       && row.completions[0][k] == s.completion[0]
                                       && row.completions[1][k] == s.completion[1])
  {
    assert SampleFits(c, k, nonce, arm) && SampleFits(c, 0, nonce, arm);
    RowParts(c.samples, k);
    MeanOfFew(c.samples[k].times);
  }

  lemma MeanOfFew(times: seq<real>)
    ensures |times| == 1 ==> Mean(times) == times[0]
    ensures |times| == 2 ==> Mean(times) == (times[0] + times[1]) / 2.0
  {
    if |times| == 1 {
      assert times[..0] == [];
      assert Sum(times) == times[0];
    }
    if |times| == 2 {
      assert times[..1][..0] == [];
      assert Sum(times[..1]) == times[0];
    }
  }

  // ----- the paired comparison

  /** Two controls drift apart on a case: it cannot be judged, or an axis moved either way beyond its band. */
  predicate Drifted(was: Row, now: Row, p: Policy)
    requires TimedRow(was) && TimedRow(now)
  {
    || Unsure(was, now, p)
    || Slower(was.e2e, now.e2e, p) || Faster(was.e2e, now.e2e, p)
    || Slower(was.walls, now.walls, p) || Faster(was.walls, now.walls, p)
  }

  predicate SomeDrifted(before: seq<Row>, after: seq<Row>, p: Policy)
    requires Comparables(before, after)
  {
    PartnersTimed(before, after);
    exists i :: 0 <= i < |before| && Drifted(before[i], Partner(after, before[i]), p)
  }

  predicate ShowsDrift(r: CaseReport) {
    AxisDrift(r.id, EndToEnd, r.e2e) != [] || AxisDrift(r.id, GroupWall, r.wall) != []
  }

  lemma {:induction false} DriftsMean(rs: seq<CaseReport>)
    ensures Drifts(rs) != [] <==> exists i :: 0 <= i < |rs| && ShowsDrift(rs[i])
  {
    if rs != [] {
      var front, last := rs[..|rs| - 1], rs[|rs| - 1];
      DriftsMean(front);
      if ShowsDrift(last) { assert ShowsDrift(rs[|rs| - 1]); }
      if i :| 0 <= i < |front| && ShowsDrift(front[i]) { assert ShowsDrift(rs[i]); }
      if i :| 0 <= i < |rs| && ShowsDrift(rs[i]) { assert i < |front| ==> ShowsDrift(front[i]); }
    }
  }

  predicate HasUnequal(rs: seq<Reason>) { exists i :: 0 <= i < |rs| && rs[i].UnequalWork? }

  lemma {:induction false} UnequalOnlyMeans(rs: seq<Reason>)
    ensures UnequalOnly(rs) != [] <==> HasUnequal(rs)
  {
    if rs != [] {
      var front, last := rs[..|rs| - 1], rs[|rs| - 1];
      UnequalOnlyMeans(front);
      if i :| 0 <= i < |front| && front[i].UnequalWork? { assert rs[i].UnequalWork?; }
      if i :| 0 <= i < |rs| && rs[i].UnequalWork? { assert i < |front| ==> front[i].UnequalWork?; }
      if last.UnequalWork? { assert rs[|rs| - 1].UnequalWork?; }
    }
  }

  lemma UnequalJoin(a: seq<Reason>, b: seq<Reason>)
    ensures HasUnequal(a + b) <==> HasUnequal(a) || HasUnequal(b)
  {
    if i :| 0 <= i < |a| && a[i].UnequalWork? { assert (a + b)[i].UnequalWork?; }
    if i :| 0 <= i < |b| && b[i].UnequalWork? { assert (a + b)[|a| + i].UnequalWork?; }
  }

  lemma CaseUnequal(r: CaseReport, p: Policy)
    ensures HasUnequal(CaseReasons(r, p)) <==> Unequal(r.deltas, p)
  {
    var work := if Unequal(r.deltas, p) then [UnequalWork(r.id)] else [];
    UnequalJoin(work, AxisReasons(r.id, EndToEnd, r.e2e));
    UnequalJoin(work + AxisReasons(r.id, EndToEnd, r.e2e), AxisReasons(r.id, GroupWall, r.wall));
    if Unequal(r.deltas, p) { assert work[0].UnequalWork?; }
  }

  predicate SomeUnequal(rs: seq<CaseReport>, p: Policy) { exists i :: 0 <= i < |rs| && Unequal(rs[i].deltas, p) }

  lemma {:induction false} ReasonsUnequal(rs: seq<CaseReport>, p: Policy)
    ensures HasUnequal(Reasons(rs, p)) <==> SomeUnequal(rs, p)
  {
    if rs != [] {
      var front, last := rs[..|rs| - 1], rs[|rs| - 1];
      ReasonsUnequal(front, p);
      UnequalJoin(Reasons(front, p), CaseReasons(last, p));
      CaseUnequal(last, p);
      if i :| 0 <= i < |front| && Unequal(front[i].deltas, p) { assert Unequal(rs[i].deltas, p); }
      if i :| 0 <= i < |rs| && Unequal(rs[i].deltas, p) { assert i < |front| ==> Unequal(front[i].deltas, p); }
    }
  }

  /** One report shows drift, or unequal work, exactly when the controls drifted on its case. */
  lemma DriftedReport(was: Row, now: Row, p: Policy)
    requires TimedRow(was) && TimedRow(now) && p.maximumTokenDelta >= 0.0
    ensures ShowsDrift(ReportOf(was, now, p)) || Unequal(ReportOf(was, now, p).deltas, p) <==> Drifted(was, now, p)
  {
    hide AxisOf, Slower, Faster, Spread, WorkMoved, Deltas, Unequal, Median, Range, Timed;
    AxisMeans(was.e2e, now.e2e, p);
    AxisMeans(was.walls, now.walls, p);
    UnequalMeans(was.completions, now.completions, p);
  }

  lemma EnvironmentMeans(before: seq<Row>, after: seq<Row>, p: Policy)
    requires Comparables(before, after) && p.maximumTokenDelta >= 0.0
    ensures var environment := CompareRows(before, after, p);
            Drifts(environment.cases) + UnequalOnly(environment.reasons) != [] <==> SomeDrifted(before, after, p)
  {
    hide ShowsDrift, Unequal, SomeDrifted, HasUnequal, UnequalOnly, Drifts, Conclude, SomeUnequal;
    PartnersTimed(before, after);
    var rs := Reports(before, after, p);
    DriftsMean(rs);
    ConcludedUnequal(rs, p);
    SomeDriftedWhen(rs, before, after, p);
    UnequalOnlyMeans(CompareRows(before, after, p).reasons);
  }

  lemma ConcludedUnequal(rs: seq<CaseReport>, p: Policy)
    ensures var c := Conclude(rs, Reasons(rs, p), Ratios(rs, 1), Ratios(rs, 2), p);
            c.cases == rs && (HasUnequal(c.reasons) <==> SomeUnequal(rs, p))
  {
    hide HasUnequal, SomeUnequal, Reasons, Ratios, ScoreOf, GainTooSmall, Improves, VerdictOf;
    var score := ScoreOf(Ratios(rs, 1), Ratios(rs, 2));
    var more := if GainTooSmall(score, p) || !Improves(rs) then [GainUnresolved] else [];
    ReasonsUnequal(rs, p);
    UnequalJoin(Reasons(rs, p), more);
    NoneUnequal(more);
  }

  lemma NoneUnequal(more: seq<Reason>)
    requires more in [[], [GainUnresolved]]
    ensures !HasUnequal(more)
  {
  }

  lemma SomeDriftedWhen(rs: seq<CaseReport>, before: seq<Row>, after: seq<Row>, p: Policy)
    requires Comparables(before, after) && p.maximumTokenDelta >= 0.0
    requires forall i :: 0 <= i < |before| ==> Find(after, before[i].id).Some?
    requires rs == Reports(before, after, p)
    ensures (exists i :: 0 <= i < |rs| && ShowsDrift(rs[i])) || SomeUnequal(rs, p) <==> SomeDrifted(before, after, p)
  {
    hide ShowsDrift, Unequal, Drifted, Find, ReportOf, Reports;
    PartnersTimed(before, after);
    forall i | 0 <= i < |before|
      ensures ShowsDrift(rs[i]) || Unequal(rs[i].deltas, p) <==> Drifted(before[i], Partner(after, before[i]), p)
    {
      ReportAt(before, after, p, i);
      DriftedReport(before[i], Partner(after, before[i]), p);
    }
  }

  lemma {:induction false} AgainstAll(rs: seq<Reason>)
    requires forall i :: 0 <= i < |rs| ==> rs[i] != GainUnresolved
    ensures Against(rs) == rs
  {
    if rs != [] {
      AgainstAll(rs[..|rs| - 1]);
      assert rs == rs[..|rs| - 1] + [rs[|rs| - 1]];
    }
  }

  lemma AgainstSnoc(rs: seq<Reason>, r: Reason)
    ensures Against(rs + [r]) == Against(rs) + if r != GainUnresolved then [r] else []
  {
    assert (rs + [r])[..|rs|] == rs;
  }

  lemma AgainstMeans(rs: seq<Reason>)
    requires forall i :: 0 <= i < |rs| ==> rs[i] != GainUnresolved
    ensures Against(rs) == rs && Against(rs + [GainUnresolved]) == rs
  {
    hide Against;
    AgainstAll(rs);
    AgainstSnoc(rs, GainUnresolved);
  }

  lemma PairMeans(before: seq<Row>, after: seq<Row>, p: Policy)
    requires Comparables(before, after) && p.maximumTokenDelta >= 0.0
    ensures Against(CompareRows(before, after, p).reasons) != [] <==>
            SomeUnsure(before, after, p) || SomeWorse(before, after, p)
  {
    hide AnyReport, SomeUnsure, SomeWorse, Conclude, Against;
    PartnersTimed(before, after);
    var rs := Reports(before, after, p);
    ReportsSay(before, after, p);
    ReasonMeans(rs, before, after, p);
    ReasonsMean(rs, p);
    ConcludedAgainst(rs, p);
  }

  lemma ConcludedAgainst(rs: seq<CaseReport>, p: Policy)
    ensures Against(Conclude(rs, Reasons(rs, p), Ratios(rs, 1), Ratios(rs, 2), p).reasons) == Reasons(rs, p)
  {
    hide Against, Reasons, Ratios, ScoreOf, GainTooSmall, Improves, VerdictOf;
    forall i | 0 <= i < |Reasons(rs, p)| ensures Reasons(rs, p)[i] != GainUnresolved { RealReasons(rs, p, i); }
    AgainstMeans(Reasons(rs, p));
    assert Reasons(rs, p) + [] == Reasons(rs, p);
  }

  /** The verdict of a paired comparison: inconclusive when the two controls drifted; else, where the
      candidate cannot be judged against its own control or is worse than it, inconclusive or a revert;
      else the verdict against the reference. */
  lemma PairedVerdictWhen(ref: seq<Row>, cand: seq<Row>, refC: seq<Row>, candC: seq<Row>, p: Policy)
    requires Comparables(ref, cand) && Comparables(candC, cand) && Comparables(refC, candC) && p.maximumTokenDelta >= 0.0
    ensures Settle(CompareRows(ref, cand, p), CompareRows(candC, cand, p), CompareRows(refC, candC, p)).verdict ==
            if SomeDrifted(refC, candC, p) then Inconclusive
            else if SomeUnsure(candC, cand, p) then Inconclusive
            else if SomeWorse(candC, cand, p) then Revert
            else CompareRows(ref, cand, p).verdict
  {
    hide Comparables, SomeDrifted, SomeUnsure, SomeWorse, CompareRows, Against, Drifts, UnequalOnly, GainShort, SomeFaster;
    EnvironmentMeans(refC, candC, p);
    PairMeans(candC, cand, p);
    VerdictWhen(candC, cand, p);
  }
}
