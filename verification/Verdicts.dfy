/** What a verdict of the latency comparator means. */
module Verdicts {
  import opened Results
  import opened Stats
  import opened Latency
  import opened Compare

  // ----- KEEP bounds every axis of every case

  lemma {:induction false} QuietCases(rs: seq<CaseReport>, p: Policy, i: nat)
    requires i < |rs| && Reasons(rs, p) == []
    ensures CaseReasons(rs[i], p) == []
    decreases |rs|
  {
    var front, last := rs[..|rs| - 1], rs[|rs| - 1];
    assert Reasons(front, p) + CaseReasons(last, p) == [];
    if i < |front| {
      QuietCases(front, p, i);
    }
  }

  lemma QuietAxis(id: string, r: CaseReport, p: Policy)
    requires CaseReasons(r, p) == []
    ensures r.e2e.stable && !r.e2e.regression && r.wall.stable && !r.wall.regression && !Unequal(r.deltas, p)
  {
    assert AxisReasons(r.id, EndToEnd, r.e2e) == [] && AxisReasons(r.id, GroupWall, r.wall) == [];
  }

  lemma KeepIsQuiet(c: Comparison, rs: seq<CaseReport>, one: seq<real>, two: seq<real>, p: Policy)
    requires c == Conclude(rs, Reasons(rs, p), one, two, p) && c.verdict == Keep
    ensures Reasons(rs, p) == [] && !GainTooSmall(c.score, p) && Improves(rs)
  {
  }

  /** The median may not rise above the baseline by more than the spread cap allows. */
  predicate Bounded(before: real, after: real, p: Policy)
    requires ValidPolicy(p)
  {
    after <= before / (1.0 - p.maximumSpread / 100.0)
  }

  lemma Divide(x: real, y: real, c: real)
    requires 0.0 < c < 1.0 && x - Times(x, c) <= y
    ensures x <= y / (1.0 - c)
  {
    var d := 1.0 - c;
    assert x - Times(x, c) == Times(x, d);
    Quotient(x, y, d);
  }

  lemma Quotient(x: real, y: real, d: real)
    requires d > 0.0 && Times(x, d) <= y
    ensures x <= y / d
  {
  }

  lemma RatioBelow(x: real, m: real, s: real)
    requires m > 0.0 && x / m * 100.0 <= s
    ensures x <= Times(m, s / 100.0)
  {
    assert x == Times(m, x / m);
  }

  lemma FloorBelow(m: real, f: real, s: real)
    requires m > 0.0 && f <= s
    ensures m * f / 100.0 <= Times(m, s / 100.0)
  {
    assert m * f <= m * s;
  }

  lemma Band(m: real, n: real, c: real, least: real, before: real, after: real)
    requires m > 0.0 && n > 0.0 && c > 0.0
    requires least <= Times(m, c) && before <= Times(m, c) && after <= Times(n, c)
    requires n - m <= Larger(least, Larger(before, after))
    ensures n - Times(n, c) <= m
  {
    if n > m {
      TimesOrder(m, n, c);
    } else {
      assert Times(n, c) > 0.0;
    }
  }

  lemma AxisBound(m: real, n: real, before: real, after: real, least: real, p: Policy)
    requires ValidPolicy(p) && m > 0.0 && n > 0.0
    requires before / m * 100.0 <= p.maximumSpread && after / n * 100.0 <= p.maximumSpread
    requires least == m * p.noiseFloor / 100.0 && n - m <= Larger(least, Larger(before, after))
    ensures Bounded(m, n, p)
  {
    var c := p.maximumSpread / 100.0;
    RatioBelow(before, m, p.maximumSpread);
    RatioBelow(after, n, p.maximumSpread);
    FloorBelow(m, p.noiseFloor, p.maximumSpread);
    Band(m, n, c, least, before, after);
    Divide(n, m, c);
  }

  lemma BothBelow(x: real, y: real, s: real)
    requires Larger(x, y) * 100.0 <= s
    ensures x * 100.0 <= s && y * 100.0 <= s
  {
  }

  /** A stable axis without a regression keeps the candidate median within the cap. */
  lemma QuietAxisBound(before: seq<real>, after: seq<real>, p: Policy)
    requires ValidPolicy(p) && Timed(before) && Timed(after)
    requires AxisOf(before, after, p).stable && !AxisOf(before, after, p).regression
    ensures Bounded(Median(before), Median(after), p)
  {
    MedianPositive(before);
    MedianPositive(after);
    MadeAxisBound(Median(before), Median(after), Range(before), Range(after), p);
  }

  lemma MadeAxisBound(m: real, n: real, before: real, after: real, p: Policy)
    requires ValidPolicy(p) && m > 0.0 && n > 0.0
    requires MakeAxis(m, n, before, after, p).stable && !MakeAxis(m, n, before, after, p).regression
    ensures Bounded(m, n, p)
  {
    BothBelow(before / m, after / n, p.maximumSpread);
    AxisBound(m, n, before, after, m * p.noiseFloor / 100.0, p);
  }

  predicate RowBounded(was: Row, now: Row, p: Policy)
    requires ValidPolicy(p) && TimedRow(was) && TimedRow(now)
  {
    Bounded(Median(was.e2e), Median(now.e2e), p) && Bounded(Median(was.walls), Median(now.walls), p)
  }

  lemma {:induction false} ReportAt(before: seq<Row>, after: seq<Row>, p: Policy, i: nat)
    requires TimedRows(before) && TimedRows(after) && i < |before|
    requires forall k :: 0 <= k < |before| ==> Find(after, before[k].id).Some?
    ensures Find(after, before[i].id).value in after
    ensures Reports(before, after, p)[i] == ReportOf(before[i], Find(after, before[i].id).value, p)
    decreases |before|
  {
    FoundIsThere(after, before[i].id);
    if i < |before| - 1 {
      ReportAt(before[..|before| - 1], after, p, i);
    }
  }

  lemma QuietRowBound(before: seq<Row>, after: seq<Row>, p: Policy, i: nat)
    requires ValidPolicy(p) && TimedRows(before) && TimedRows(after) && SameCases(before, after) && i < |before|
    requires Reasons(Reports(before, after, p), p) == []
    ensures Find(after, before[i].id).value in after
    ensures RowBounded(before[i], Find(after, before[i].id).value, p)
    ensures var r := ReportOf(before[i], Find(after, before[i].id).value, p);
            r.e2e.stable && r.wall.stable && !Unequal(r.deltas, p)
  {
    ReportAt(before, after, p, i);
    var rs := Reports(before, after, p);
    QuietCases(rs, p, i);
    QuietAxis(before[i].id, rs[i], p);
    var now := Find(after, before[i].id).value;
    QuietAxisBound(before[i].e2e, now.e2e, p);
    QuietAxisBound(before[i].walls, now.walls, p);
  }

  /** KEEP bounds, for every case and on both axes, the candidate's median by the baseline's over
      (1 - cap); generated work agrees within its cap, and the score reached the required gain. */
  lemma KeepBounds(before: seq<Row>, after: seq<Row>, p: Policy)
    requires ValidPolicy(p) && TimedRows(before) && TimedRows(after) && SameCases(before, after)
    requires CompareRows(before, after, p).verdict == Keep
    ensures !GainTooSmall(CompareRows(before, after, p).score, p)
    ensures forall i :: 0 <= i < |before| ==>
      && Find(after, before[i].id).value in after
      && RowBounded(before[i], Find(after, before[i].id).value, p)
      && !Unequal(Deltas(before[i].completions, Find(after, before[i].id).value.completions), p)
  {
    var rs := Reports(before, after, p);
    KeepIsQuiet(CompareRows(before, after, p), rs, Ratios(rs, 1), Ratios(rs, 2), p);
    forall i | 0 <= i < |before|
      ensures Find(after, before[i].id).value in after && RowBounded(before[i], Find(after, before[i].id).value, p)
      ensures !Unequal(Deltas(before[i].completions, Find(after, before[i].id).value.completions), p)
    {
      QuietRowBound(before, after, p, i);
    }
  }

  /** The bound of one record's medians by another's, case by case and on both axes. */
  predicate RecordBounded(b: Record, c: Record, p: Policy)
    requires ValidPolicy(p)
  {
    && TimedRows(Rows(b.cases)) && TimedRows(Rows(c.cases))
    && forall i :: 0 <= i < |b.cases| ==>
         var now := Find(Rows(c.cases), b.cases[i].id);
         now.Some? && now.value in Rows(c.cases) && RowBounded(RowOf(b.cases[i]), now.value, p)
  }

  /** A KEEP between two records bounds the candidate's record by the baseline's, and the score
      reached the required gain. */
  lemma RecordKeepBounds(b: Record, c: Record, p: Policy)
    requires Comparable(b, c, p) && Compared(b, c, p).verdict == Keep
    ensures !GainTooSmall(Compared(b, c, p).score, p) && RecordBounded(b, c, p)
  {
    SeriesTimed(b, p);
    SeriesTimed(c, p);
    KeepBounds(Rows(b.cases), Rows(c.cases), p);
    var was, now := Rows(b.cases), Rows(c.cases);
    forall i | 0 <= i < |b.cases|
      ensures Find(now, b.cases[i].id).Some? && Find(now, b.cases[i].id).value in now
      ensures RowBounded(RowOf(b.cases[i]), Find(now, b.cases[i].id).value, p)
    {
      assert was[i] == RowOf(b.cases[i]);
      assert Matched(was[i], now);
      assert Find(now, was[i].id).value in now && RowBounded(was[i], Find(now, was[i].id).value, p);
    }
  }

  // ----- the paired comparison

  function AxisDrift(id: string, name: AxisName, a: Axis): seq<Reason> {
    if !a.stable || Abs(a.after - a.before) > a.band then [Drift(id, name)] else []
  }

  function Drifts(rs: seq<CaseReport>): seq<Reason> {
    if rs == [] then []
    else
      var last := rs[|rs| - 1];
      Drifts(rs[..|rs| - 1]) + AxisDrift(last.id, EndToEnd, last.e2e) + AxisDrift(last.id, GroupWall, last.wall)
  }

  function UnequalOnly(rs: seq<Reason>): seq<Reason> {
    if rs == [] then []
    else
      var last := rs[|rs| - 1];
      UnequalOnly(rs[..|rs| - 1]) + (if last.UnequalWork? then [last] else [])
  }

  /** The reasons that veto a candidate against its own control. */
  function Against(rs: seq<Reason>): seq<Reason> {
    if rs == [] then []
    else
      var last := rs[|rs| - 1];
      Against(rs[..|rs| - 1]) + (if last != GainUnresolved then [last] else [])
  }

  lemma {:induction false} AgainstHas(rs: seq<Reason>, i: nat)
    requires i < |rs| && rs[i] != GainUnresolved
    ensures Against(rs) != []
    decreases |rs|
  {
    if i < |rs| - 1 {
      AgainstHas(rs[..|rs| - 1], i);
    }
  }

  function MarkPaired(rs: seq<Reason>): seq<Reason> {
    if rs == [] then [] else MarkPaired(rs[..|rs| - 1]) + [Paired(rs[|rs| - 1])]
  }

  /** The final disposition from the three comparisons that count. */
  function Settle(result: Comparison, paired: Comparison, environment: Comparison): Comparison {
    var drift := Drifts(environment.cases) + UnequalOnly(environment.reasons);
    var against := Against(paired.reasons);
    if drift != [] then result.(reasons := drift, verdict := Inconclusive)
    else if against != [] then
      result.(reasons := result.reasons + MarkPaired(against),
              verdict := if paired.verdict == Inconclusive then Inconclusive else Revert)
    else result
  }

  predicate SameOwner(m: Record, control: Record) {
    && m.arm == Mtp && control.arm == Control
    && m.selection == control.selection && m.runtime == control.runtime && m.workload == control.workload
    && m.observation == control.observation && m.seal == control.seal && m.quality == control.quality
  }

  /** A measurement and its control: the two arms of one owner's one observation of one selection. */
  method CheckOwner(m: Record, control: Record) returns (ok: bool)
    ensures ok == SameOwner(m, control)
  {
    ok := m.arm.Mtp? && control.arm.Control?;
    var mine := (m.selection, m.runtime, m.workload, m.observation, m.seal, m.quality);
    if mine != (control.selection, control.runtime, control.workload, control.observation, control.seal, control.quality) {
      ok := false;
    }
  }

  /** Drift between the controls is settled first, then what stands against the candidate's own control. */
  method SettleAll(result: Comparison, paired: Comparison, environment: Comparison) returns (settled: Comparison)
    ensures settled == Settle(result, paired, environment)
  {
    var drift: seq<Reason>, i := [], 0;
    while i < |environment.cases|
      invariant 0 <= i <= |environment.cases| && drift == Drifts(environment.cases[..i])
    {
      var r := environment.cases[i];
      assert environment.cases[..i + 1][..i] == environment.cases[..i];
      if !r.e2e.stable || r.e2e.after - r.e2e.before > r.e2e.band || r.e2e.before - r.e2e.after > r.e2e.band {
        drift := drift + [Drift(r.id, EndToEnd)];
      }
      if !r.wall.stable || r.wall.after - r.wall.before > r.wall.band || r.wall.before - r.wall.after > r.wall.band {
        drift := drift + [Drift(r.id, GroupWall)];
      }
      i := i + 1;
    }
    assert environment.cases[..i] == environment.cases;
    var unequal, against := SplitReasons(environment.reasons, paired.reasons);
    drift := drift + unequal;
    if |drift| > 0 { return result.(reasons := drift, verdict := Inconclusive); }
    if |against| == 0 { return result; }
    settled := result.(reasons := result.reasons + MarkPaired(against), verdict := Revert);
    if paired.verdict == Inconclusive { settled := settled.(verdict := Inconclusive); }
  }

  method SplitReasons(environment: seq<Reason>, paired: seq<Reason>) returns (unequal: seq<Reason>, against: seq<Reason>)
    ensures unequal == UnequalOnly(environment) && against == Against(paired)
  {
    unequal, against := [], [];
    var i := 0;
    while i < |environment|
      invariant 0 <= i <= |environment| && unequal == UnequalOnly(environment[..i])
    {
      assert environment[..i + 1][..i] == environment[..i];
      if environment[i].UnequalWork? { unequal := unequal + [environment[i]]; }
      i := i + 1;
    }
    assert environment[..i] == environment;
    i := 0;
    while i < |paired|
      invariant 0 <= i <= |paired| && against == Against(paired[..i])
    {
      assert paired[..i + 1][..i] == paired[..i];
      if !paired[i].GainUnresolved? { against := against + [paired[i]]; }
      i := i + 1;
    }
    assert paired[..i] == paired;
  }

  /** The paired comparison: both pairs, the two controls, and the two candidates are compared. */
  method PairedComparison(reference: Record, candidate: Record, refControl: Record, candControl: Record, p: Policy)
    returns (out: Result<Comparison>)
    ensures out.Ok? <==>
            && SameOwner(reference, refControl) && SameOwner(candidate, candControl)
            && refControl.candidate == candControl.candidate
            && Comparable(refControl, reference, p) && Comparable(candControl, candidate, p)
            && Comparable(refControl, candControl, p) && Comparable(reference, candidate, p)
    ensures out.Ok? ==>
              out.value == Settle(Compared(reference, candidate, p), Compared(candControl, candidate, p),
                                  Compared(refControl, candControl, p))
  {
    var mine := CheckOwner(reference, refControl);
    var yours := CheckOwner(candidate, candControl);
    if !mine || !yours { return Refused; }
    if refControl.candidate != candControl.candidate { return Refused; }
    var original := CompareRecords(refControl, reference, p);
    if original.Refused? { return Refused; }
    var paired := CompareRecords(candControl, candidate, p);
    if paired.Refused? { return Refused; }
    var environment := CompareRecords(refControl, candControl, p);
    if environment.Refused? { return Refused; }
    var result := CompareRecords(reference, candidate, p);
    if result.Refused? { return Refused; }
    var settled := SettleAll(result.value, paired.value, environment.value);
    return Ok(settled);
  }

  lemma {:induction false} NoDrifts(rs: seq<CaseReport>, i: nat)
    requires i < |rs| && Drifts(rs) == []
    ensures AxisDrift(rs[i].id, EndToEnd, rs[i].e2e) == [] && AxisDrift(rs[i].id, GroupWall, rs[i].wall) == []
    decreases |rs|
  {
    var front, last := rs[..|rs| - 1], rs[|rs| - 1];
    assert Drifts(front) + AxisDrift(last.id, EndToEnd, last.e2e) + AxisDrift(last.id, GroupWall, last.wall) == [];
    if i < |front| {
      NoDrifts(front, i);
    }
  }

  lemma KeptAgainst(paired: Comparison, rs: seq<CaseReport>, one: seq<real>, two: seq<real>, p: Policy)
    requires paired == Conclude(rs, Reasons(rs, p), one, two, p)
    requires Against(paired.reasons) == []
    ensures Reasons(rs, p) == []
  {
    if Reasons(rs, p) != [] {
      RealReasons(rs, p, 0);
      AgainstHas(paired.reasons, 0);
    }
  }

  lemma {:induction false} RealReasons(rs: seq<CaseReport>, p: Policy, i: nat)
    requires i < |Reasons(rs, p)|
    ensures Reasons(rs, p)[i] != GainUnresolved
    decreases |rs|
  {
    var front, last := rs[..|rs| - 1], rs[|rs| - 1];
    if i < |Reasons(front, p)| {
      RealReasons(front, p, i);
    } else {
      assert Reasons(rs, p)[i] == CaseReasons(last, p)[i - |Reasons(front, p)|];
    }
  }

  /** Pairing can only veto: it never turns another verdict into KEEP. */
  lemma PairingOnlyVetoes(result: Comparison, paired: Comparison, environment: Comparison)
    ensures Settle(result, paired, environment).verdict == Keep ==> result.verdict == Keep
  {
  }

  /** A drift-free axis: both controls are stable and agree within the noise band. */
  predicate Agree(a: Axis) {
    a.stable && Abs(a.after - a.before) <= a.band
  }

  lemma AgreeBound(before: seq<real>, after: seq<real>, p: Policy)
    requires ValidPolicy(p) && Timed(before) && Timed(after) && Agree(AxisOf(before, after, p))
    ensures Bounded(Median(before), Median(after), p)
  {
    QuietAxisBound(before, after, p);
  }

  /** Pairing keeps: no reason stands against the candidate's own control, and no drift between controls. */
  lemma PairedKeepIsQuiet(result: Comparison, paired: Comparison, environment: Comparison)
    requires Settle(result, paired, environment).verdict == Keep
    ensures result.verdict == Keep && Drifts(environment.cases) == []
    ensures Against(paired.reasons) == []
  {
  }

  lemma OwnControlBounds(candC: seq<Row>, cand: seq<Row>, p: Policy)
    requires ValidPolicy(p) && TimedRows(cand) && TimedRows(candC) && SameCases(candC, cand)
    requires Against(CompareRows(candC, cand, p).reasons) == []
    ensures forall i :: 0 <= i < |candC| ==>
      Find(cand, candC[i].id).value in cand && RowBounded(candC[i], Find(cand, candC[i].id).value, p)
  {
    var rs := Reports(candC, cand, p);
    KeptAgainst(CompareRows(candC, cand, p), rs, Ratios(rs, 1), Ratios(rs, 2), p);
    forall i | 0 <= i < |candC|
      ensures Find(cand, candC[i].id).value in cand && RowBounded(candC[i], Find(cand, candC[i].id).value, p)
    {
      QuietRowBound(candC, cand, p, i);
    }
  }

  lemma ControlsAgree(refC: seq<Row>, candC: seq<Row>, p: Policy, i: nat)
    requires ValidPolicy(p) && TimedRows(refC) && TimedRows(candC) && SameCases(refC, candC) && i < |refC|
    requires Drifts(CompareRows(refC, candC, p).cases) == []
    ensures Find(candC, refC[i].id).value in candC
    ensures Agree(AxisOf(refC[i].e2e, Find(candC, refC[i].id).value.e2e, p))
    ensures Agree(AxisOf(refC[i].walls, Find(candC, refC[i].id).value.walls, p))
    ensures RowBounded(refC[i], Find(candC, refC[i].id).value, p)
  {
    ReportAt(refC, candC, p, i);
    NoDrifts(Reports(refC, candC, p), i);
    AgreeBound(refC[i].e2e, Find(candC, refC[i].id).value.e2e, p);
    AgreeBound(refC[i].walls, Find(candC, refC[i].id).value.walls, p);
  }

  /** A paired KEEP: the candidate is bounded by the reference and by its own control, and the two
      controls agree within the noise band on both axes of every case. */
  lemma PairedKeepBounds(ref: seq<Row>, cand: seq<Row>, refC: seq<Row>, candC: seq<Row>, p: Policy)
    requires ValidPolicy(p) && TimedRows(ref) && TimedRows(cand) && TimedRows(refC) && TimedRows(candC)
    requires SameCases(ref, cand) && SameCases(candC, cand) && SameCases(refC, candC)
    requires Settle(CompareRows(ref, cand, p), CompareRows(candC, cand, p), CompareRows(refC, candC, p)).verdict == Keep
    ensures forall i :: 0 <= i < |ref| ==>
      Find(cand, ref[i].id).value in cand && RowBounded(ref[i], Find(cand, ref[i].id).value, p)
    ensures forall i :: 0 <= i < |candC| ==>
      Find(cand, candC[i].id).value in cand && RowBounded(candC[i], Find(cand, candC[i].id).value, p)
    ensures forall i :: 0 <= i < |refC| ==>
      && Find(candC, refC[i].id).value in candC
      && Agree(AxisOf(refC[i].e2e, Find(candC, refC[i].id).value.e2e, p))
      && Agree(AxisOf(refC[i].walls, Find(candC, refC[i].id).value.walls, p))
  {
    PairedKeepIsQuiet(CompareRows(ref, cand, p), CompareRows(candC, cand, p), CompareRows(refC, candC, p));
    KeepBounds(ref, cand, p);
    OwnControlBounds(candC, cand, p);
    forall i | 0 <= i < |refC|
      ensures Find(candC, refC[i].id).value in candC
      ensures Agree(AxisOf(refC[i].e2e, Find(candC, refC[i].id).value.e2e, p))
      ensures Agree(AxisOf(refC[i].walls, Find(candC, refC[i].id).value.walls, p))
    {
      ControlsAgree(refC, candC, p, i);
    }
  }

  /** A KEEP that the paired comparison of four records returns: the candidate's record is bounded by
      the reference's and by its own control's, and the controls' records by each other. */
  lemma RecordPairedKeepBounds(reference: Record, candidate: Record, refControl: Record, candControl: Record, p: Policy)
    requires Comparable(candControl, candidate, p) && Comparable(refControl, candControl, p)
    requires Comparable(reference, candidate, p)
    requires Settle(Compared(reference, candidate, p), Compared(candControl, candidate, p),
                    Compared(refControl, candControl, p)).verdict == Keep
    ensures RecordBounded(reference, candidate, p) && RecordBounded(candControl, candidate, p)
    ensures RecordBounded(refControl, candControl, p)
  {
    PairedKeepIsQuiet(Compared(reference, candidate, p), Compared(candControl, candidate, p),
                      Compared(refControl, candControl, p));
    RecordKeepBounds(reference, candidate, p);
    OwnRecordBounds(candControl, candidate, p);
    ControlRecordBounds(refControl, candControl, p);
  }

  lemma OwnRecordBounds(control: Record, candidate: Record, p: Policy)
    requires Comparable(control, candidate, p) && Against(Compared(control, candidate, p).reasons) == []
    ensures RecordBounded(control, candidate, p)
  {
    SeriesTimed(control, p);
    SeriesTimed(candidate, p);
    OwnControlBounds(Rows(control.cases), Rows(candidate.cases), p);
    BoundedAre(control, candidate, p);
  }

  lemma ControlRecordBounds(one: Record, two: Record, p: Policy)
    requires Comparable(one, two, p) && Drifts(Compared(one, two, p).cases) == []
    ensures RecordBounded(one, two, p)
  {
    SeriesTimed(one, p);
    SeriesTimed(two, p);
    forall i | 0 <= i < |one.cases|
      ensures Find(Rows(two.cases), Rows(one.cases)[i].id).value in Rows(two.cases)
      ensures RowBounded(Rows(one.cases)[i], Find(Rows(two.cases), Rows(one.cases)[i].id).value, p)
    {
      ControlsAgree(Rows(one.cases), Rows(two.cases), p, i);
    }
    BoundedAre(one, two, p);
  }

  lemma BoundedAre(b: Record, c: Record, p: Policy)
    requires ValidPolicy(p) && TimedRows(Rows(b.cases)) && TimedRows(Rows(c.cases))
    requires SameCases(Rows(b.cases), Rows(c.cases))
    requires forall i :: 0 <= i < |Rows(b.cases)| ==>
      && Find(Rows(c.cases), Rows(b.cases)[i].id).value in Rows(c.cases)
      && RowBounded(Rows(b.cases)[i], Find(Rows(c.cases), Rows(b.cases)[i].id).value, p)
    ensures RecordBounded(b, c, p)
  {
    forall i | 0 <= i < |b.cases|
      ensures Find(Rows(c.cases), b.cases[i].id).Some? && Find(Rows(c.cases), b.cases[i].id).value in Rows(c.cases)
      ensures RowBounded(RowOf(b.cases[i]), Find(Rows(c.cases), b.cases[i].id).value, p)
    {
      assert Rows(b.cases)[i] == RowOf(b.cases[i]);
      assert Matched(Rows(b.cases)[i], Rows(c.cases));
    }
  }
}
