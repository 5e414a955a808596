/** The comparison of two records does not depend on the order of their cases, nor on the order of the
    samples within a case. */
module RecordOrder {
  import opened Results
  import opened Bags
  import opened Stats
  import opened Latency
  import opened Compare
  import opened Scores
  import opened Verdicts

  /** The same case, its samples in any order. */
  predicate CaseAlike(c: Case, d: Case) {
    d == c.(samples := d.samples) && multiset(d.samples) == multiset(c.samples)
  }

  predicate CasesAlike(a: seq<Case>, b: seq<Case>) {
    |a| == |b| && forall i :: 0 <= i < |a| ==> CaseAlike(a[i], b[i])
  }

  predicate Shuffled(r: Record, s: Record) {
    s == r.(cases := s.cases) && multiset(s.cases) == multiset(r.cases)
  }

  predicate Resampled(r: Record, s: Record) {
    s == r.(cases := s.cases) && CasesAlike(r.cases, s.cases)
  }

  // ----- the rows of a series

  lemma {:induction false} RowParts(samples: seq<Sample>, i: nat)
    requires i < |samples|
    ensures Means(samples)[i] == Mean(samples[i].times) && Walls(samples)[i] == samples[i].wall
    ensures forall k :: Column(samples, k)[i] == At(samples[i].completion, k)
  {
    if i < |samples| - 1 { RowParts(samples[..|samples| - 1], i); }
  }

  /** The columns of a case hold the same values in any order of its samples. */
  lemma ColumnsAlike(a: seq<Sample>, b: seq<Sample>, k: nat)
    requires multiset(a) == multiset(b)
    ensures multiset(Means(a)) == multiset(Means(b)) && multiset(Walls(a)) == multiset(Walls(b))
    ensures multiset(Column(a, k)) == multiset(Column(b, k)) && multiset(IdsOf(a)) == multiset(IdsOf(b))
  {
    forall i | 0 <= i < |a| { RowParts(a, i); }
    forall i | 0 <= i < |b| { RowParts(b, i); }
    MappedBag(a, b, Means(a), Means(b));
    MappedBag(a, b, Walls(a), Walls(b));
    MappedBag(a, b, Column(a, k), Column(b, k));
    MappedBag(a, b, IdsOf(a), IdsOf(b));
  }

  predicate ColumnsSame(a: seq<seq<int>>, b: seq<seq<int>>) {
    |a| == |b| && forall i :: 0 <= i < |a| ==> multiset(a[i]) == multiset(b[i])
  }

  /** The same row, its columns in any order. */
  predicate RowAlike(x: Row, y: Row) {
    && x.id == y.id && x.concurrency == y.concurrency && x.contract == y.contract && x.prompts == y.prompts
    && multiset(x.e2e) == multiset(y.e2e) && multiset(x.walls) == multiset(y.walls)
    && ColumnsSame(x.completions, y.completions)
  }

  predicate RowsAlike(a: seq<Row>, b: seq<Row>) {
    |a| == |b| && forall i :: 0 <= i < |a| ==> RowAlike(a[i], b[i])
  }

  /** Cases and samples in any order. */
  ghost predicate Rearranged(r: Record, s: Record) {
    exists mid: Record :: Shuffled(r, mid) && Resampled(mid, s)
  }

  // ----- validity

  lemma SampleFitsAlike(c: Case, d: Case, nonce: string, arm: Arm)
    requires CaseAlike(c, d) && SamplesFit(c, |c.samples|, nonce, arm)
    ensures SamplesFit(d, |d.samples|, nonce, arm)
    ensures c.samples != [] ==> d.samples != [] && d.samples[0].prompt == c.samples[0].prompt
  {
    SameLength(c.samples, d.samples);
    forall k | 0 <= k < |d.samples|
      ensures SampleOk(d.samples[k], nonce, arm, d.concurrency) && d.samples[k].prompt == c.samples[0].prompt
    {
      var j := InBag(c.samples, d.samples, k);
      assert SampleFits(c, j, nonce, arm);
    }
  }

  lemma CaseOkAlike(c: Case, d: Case, nonce: string, arm: Arm, p: Policy)
    requires CaseAlike(c, d) && CaseOk(c, nonce, arm, p)
    ensures CaseOk(d, nonce, arm, p)
    ensures d.samples != [] && c.samples != [] ==> d.samples[0].prompt == c.samples[0].prompt
  {
    SameLength(c.samples, d.samples);
    SampleFitsAlike(c, d, nonce, arm);
  }

  lemma {:induction false} IdsAlike(a: seq<Case>, b: seq<Case>)
    requires CasesAlike(a, b)
    ensures multiset(SampleIds(a)) == multiset(SampleIds(b))
  {
    if a != [] {
      var c, d := a[|a| - 1], b[|b| - 1];
      IdsAlike(a[..|a| - 1], b[..|b| - 1]);
      assert CaseAlike(c, d);
      ColumnsAlike(c.samples, d.samples, 0);
    }
  }

  lemma {:induction false} SampleIdsConcat(a: seq<Case>, b: seq<Case>)
    ensures SampleIds(a + b) == SampleIds(a) + SampleIds(b)
    decreases |b|
  {
    hide IdsOf;
    if b == [] {
      assert a + b == a;
    } else {
      assert (a + b)[..|a + b| - 1] == a + b[..|b| - 1];
      SampleIdsConcat(a, b[..|b| - 1]);
    }
  }

  lemma SampleIdsOne(c: Case)
    ensures SampleIds([c]) == IdsOf(c.samples)
  {
    assert [c][..0] == [];
  }

  lemma SampleIdsThree(front: seq<Case>, c: Case, back: seq<Case>)
    ensures SampleIds(front + [c] + back) == SampleIds(front) + IdsOf(c.samples) + SampleIds(back)
  {
    SampleIdsConcat(front + [c], back);
    SampleIdsConcat(front, [c]);
    SampleIdsOne(c);
  }

  lemma SampleIdsWithout(cases: seq<Case>, k: nat)
    requires k < |cases|
    ensures multiset(SampleIds(cases)) ==
            multiset(SampleIds(cases[..k] + cases[k + 1..])) + multiset(IdsOf(cases[k].samples))
  {
    hide SampleIds, IdsOf;
    var front, back := cases[..k], cases[k + 1..];
    Around(cases, k);
    SampleIdsThree(front, cases[k], back);
    SampleIdsConcat(front, back);
  }

  lemma {:induction false} IdsShuffled(a: seq<Case>, b: seq<Case>)
    requires multiset(a) == multiset(b)
    ensures multiset(SampleIds(a)) == multiset(SampleIds(b))
    decreases |a|
  {
    if a == [] {
      SameLength(a, b);
    } else {
      var k := SameBagLast(a, b);
      IdsShuffled(a[..|a| - 1], b[..k] + b[k + 1..]);
      SampleIdsWithout(b, k);
    }
  }

  lemma SameMembersOf(a: seq<string>, b: seq<string>)
    requires multiset(a) == multiset(b)
    ensures Members(a) == Members(b) && (Distinct(a) ==> Distinct(b))
  {
    forall x ensures x in a <==> x in b {
      assert x in a <==> x in multiset(a);
      assert x in b <==> x in multiset(b);
    }
    if Distinct(a) { ApartInAnyOrder(a, b); }
  }

  function CaseNames(cases: seq<Case>): (names: seq<string>)
    ensures |names| == |cases| && forall i :: 0 <= i < |names| ==> names[i] == cases[i].id
  {
    seq(|cases|, i requires 0 <= i < |cases| => cases[i].id)
  }

  lemma DistinctShuffled(a: seq<Case>, b: seq<Case>)
    requires multiset(a) == multiset(b) && DistinctCases(a)
    ensures DistinctCases(b)
  {
    MappedBag(a, b, CaseNames(a), CaseNames(b));
    ApartInAnyOrder(CaseNames(a), CaseNames(b));
    forall i, j | 0 <= i < j < |b| ensures b[i].id != b[j].id {
      assert CaseNames(b)[i] != CaseNames(b)[j];
    }
  }

  lemma ValidShuffled(r: Record, s: Record, p: Policy)
    requires Shuffled(r, s) && ValidSeries(r, p)
    ensures ValidSeries(s, p) && Members(SampleIds(s.cases)) == Members(SampleIds(r.cases))
  {
    SameLength(r.cases, s.cases);
    forall k | 0 <= k < |s.cases| ensures CaseOk(s.cases[k], s.observation, s.arm, p) {
      var j := InBag(r.cases, s.cases, k);
      assert CaseOk(r.cases[j], r.observation, r.arm, p);
    }
    IdsShuffled(r.cases, s.cases);
    SameMembersOf(SampleIds(r.cases), SampleIds(s.cases));
    DistinctShuffled(r.cases, s.cases);
    LevelsShuffled(r.cases, s.cases);
  }

  lemma LevelsShuffled(a: seq<Case>, b: seq<Case>)
    requires multiset(a) == multiset(b) && BothConcurrencies(a)
    ensures BothConcurrencies(b)
  {
    var i :| 0 <= i < |a| && a[i].concurrency == 1;
    var j :| 0 <= j < |a| && a[j].concurrency == 2;
    var k := InBag(b, a, i);
    var l := InBag(b, a, j);
  }

  lemma CasesOkAlike(r: Record, s: Record, k: nat, p: Policy)
    requires Resampled(r, s) && k < |s.cases| && CaseOk(r.cases[k], r.observation, r.arm, p)
    ensures CaseOk(s.cases[k], s.observation, s.arm, p) && RowAlike(RowOf(r.cases[k]), RowOf(s.cases[k]))
  {
    hide CaseOk, RowOf, RowAlike;
    assert CaseAlike(r.cases[k], s.cases[k]);
    CaseOkAlike(r.cases[k], s.cases[k], r.observation, r.arm, p);
    RowIsAlike(r.cases[k], s.cases[k]);
  }

  lemma NamesAlike(a: seq<Case>, b: seq<Case>)
    requires CasesAlike(a, b)
    ensures DistinctCases(a) ==> DistinctCases(b)
    ensures BothConcurrencies(a) ==> BothConcurrencies(b)
  {
    forall k | 0 <= k < |b| ensures b[k].id == a[k].id && b[k].concurrency == a[k].concurrency {
      assert CaseAlike(a[k], b[k]);
    }
  }

  lemma ValidResampled(r: Record, s: Record, p: Policy)
    requires Resampled(r, s) && ValidSeries(r, p)
    ensures ValidSeries(s, p) && Members(SampleIds(s.cases)) == Members(SampleIds(r.cases))
    ensures RowsAlike(Rows(r.cases), Rows(s.cases))
  {
    hide CaseOk, RowOf, RowAlike, SampleIds, Members, Distinct, DistinctCases, BothConcurrencies;
    forall k | 0 <= k < |s.cases|
      ensures CaseOk(s.cases[k], s.observation, s.arm, p) && RowAlike(RowOf(r.cases[k]), RowOf(s.cases[k]))
    {
      CasesOkAlike(r, s, k, p);
    }
    IdsAlike(r.cases, s.cases);
    SameMembersOf(SampleIds(r.cases), SampleIds(s.cases));
    NamesAlike(r.cases, s.cases);
  }

  lemma RowIsAlike(c: Case, d: Case)
    requires CaseAlike(c, d)
    requires c.samples != [] && d.samples != [] ==> d.samples[0].prompt == c.samples[0].prompt
    ensures RowAlike(RowOf(c), RowOf(d))
  {
    hide Means, Walls, Column, IdsOf;
    SameLength(c.samples, d.samples);
    ColumnsAlike(c.samples, d.samples, 0);
    ColumnsAlike(c.samples, d.samples, 1);
  }

  // ----- the same cases

  lemma FindAlike(a: seq<Row>, b: seq<Row>, id: string)
    requires RowsAlike(a, b)
    ensures Find(a, id).None? <==> Find(b, id).None?
    ensures Find(a, id).Some? ==> RowAlike(Find(a, id).value, Find(b, id).value)
  {
    if a != [] {
      assert RowAlike(a[0], b[0]);
      FindAlike(a[1..], b[1..], id);
    }
  }

  lemma FindShuffled(a: seq<Row>, b: seq<Row>, id: string)
    requires multiset(a) == multiset(b) && DistinctRows(a)
    ensures Find(a, id) == Find(b, id)
  {
    FoundIsThere(a, id);
    FoundIsThere(b, id);
    SameHeld(a, b);
    if Find(b, id).Some? {
      var j :| 0 <= j < |a| && a[j] == Find(b, id).value;
      FindAt(a, j);
    }
  }

  lemma MatchesAlike(was: Row, now: Row, was2: Row, now2: Row)
    requires RowAlike(was, was2) && RowAlike(now, now2) && Matches(was, now)
    ensures Matches(was2, now2)
  {
    SameLength(was.e2e, was2.e2e);
    SameLength(now.e2e, now2.e2e);
  }

  lemma SameCasesAlike(before: seq<Row>, after: seq<Row>, before2: seq<Row>, after2: seq<Row>)
    requires RowsAlike(before, before2) && RowsAlike(after, after2) && SameCases(before, after)
    ensures SameCases(before2, after2)
  {
    forall i | 0 <= i < |before2| ensures Matched(before2[i], after2) {
      assert RowAlike(before[i], before2[i]) && Matched(before[i], after);
      FindAlike(after, after2, before[i].id);
      MatchesAlike(before[i], Find(after, before[i].id).value, before2[i], Find(after2, before[i].id).value);
    }
    forall i | 0 <= i < |after2| ensures Find(before2, after2[i].id).Some? {
      assert RowAlike(after[i], after2[i]) && Find(before, after[i].id).Some?;
      FindAlike(before, before2, after[i].id);
    }
  }

  lemma SameCasesShuffled(before: seq<Row>, after: seq<Row>, before2: seq<Row>, after2: seq<Row>)
    requires multiset(before) == multiset(before2) && multiset(after) == multiset(after2)
    requires DistinctRows(before) && DistinctRows(after) && SameCases(before, after)
    ensures SameCases(before2, after2)
  {
    forall i | 0 <= i < |before2| ensures Matched(before2[i], after2) {
      var j := InBag(before, before2, i);
      assert Matched(before[j], after);
      FindShuffled(after, after2, before[j].id);
    }
    forall i | 0 <= i < |after2| ensures Find(before2, after2[i].id).Some? {
      var j := InBag(after, after2, i);
      assert Find(before, after[j].id).Some?;
      FindShuffled(before, before2, after[j].id);
    }
  }

  // ----- the same reports

  lemma {:induction false} RealsAt(ns: seq<int>, i: nat)
    requires i < |ns|
    ensures Reals(ns)[i] == ns[i] as real
  {
    if i > 0 { RealsAt(ns[1..], i - 1); }
  }

  lemma DeltaAlike(a: seq<int>, b: seq<int>, a2: seq<int>, b2: seq<int>)
    requires multiset(a) == multiset(a2) && multiset(b) == multiset(b2)
    ensures Delta(a, b) == Delta(a2, b2)
  {
    hide Median, Range, Reals;
    SameLength(a, a2);
    SameLength(b, b2);
    if a != [] && b != [] {
      RealsAlike(a, a2);
      RealsAlike(b, b2);
      OrderFree(Reals(a), Reals(a2));
      OrderFree(Reals(b), Reals(b2));
    }
  }

  lemma RealsAlike(a: seq<int>, b: seq<int>)
    requires multiset(a) == multiset(b)
    ensures multiset(Reals(a)) == multiset(Reals(b))
  {
    SameLength(a, b);
    forall i | 0 <= i < |a| { RealsAt(a, i); }
    forall i | 0 <= i < |b| { RealsAt(b, i); }
    MappedBag(a, b, Reals(a), Reals(b));
  }

  lemma {:induction false} DeltasAlike(a: seq<seq<int>>, b: seq<seq<int>>, a2: seq<seq<int>>, b2: seq<seq<int>>)
    requires ColumnsSame(a, a2) && ColumnsSame(b, b2)
    ensures Deltas(a, b) == Deltas(a2, b2)
  {
    if a != [] && b != [] {
      DeltaAlike(a[0], b[0], a2[0], b2[0]);
      DeltasAlike(a[1..], b[1..], a2[1..], b2[1..]);
    }
  }

  lemma ReportAlike(was: Row, now: Row, was2: Row, now2: Row, p: Policy)
    requires TimedRow(was) && TimedRow(now) && TimedRow(was2) && TimedRow(now2)
    requires RowAlike(was, was2) && RowAlike(now, now2)
    ensures ReportOf(was, now, p) == ReportOf(was2, now2, p)
  {
    AxisOrderFree(was.e2e, was2.e2e, now.e2e, now2.e2e, p);
    AxisOrderFree(was.walls, was2.walls, now.walls, now2.walls, p);
    DeltasAlike(was.completions, now.completions, was2.completions, now2.completions);
  }

  lemma ReportsAlike(before: seq<Row>, after: seq<Row>, before2: seq<Row>, after2: seq<Row>, p: Policy)
    requires TimedRows(before) && TimedRows(after) && TimedRows(before2) && TimedRows(after2)
    requires RowsAlike(before, before2) && RowsAlike(after, after2)
    requires SameCases(before, after) && SameCases(before2, after2)
    ensures Reports(before, after, p) == Reports(before2, after2, p)
  {
    forall i | 0 <= i < |before| ensures Reports(before, after, p)[i] == Reports(before2, after2, p)[i] {
      assert RowAlike(before[i], before2[i]);
      FindAlike(after, after2, before[i].id);
      ReportAt(before, after, p, i);
      ReportAt(before2, after2, p, i);
      ReportAlike(before[i], Find(after, before[i].id).value, before2[i], Find(after2, before2[i].id).value, p);
    }
  }

  lemma ReportsShuffled(before: seq<Row>, after: seq<Row>, before2: seq<Row>, after2: seq<Row>, p: Policy)
    requires TimedRows(before) && TimedRows(after) && TimedRows(before2) && TimedRows(after2)
    requires multiset(before) == multiset(before2) && multiset(after) == multiset(after2) && DistinctRows(after)
    requires SameCases(before, after) && SameCases(before2, after2)
    ensures multiset(Reports(before, after, p)) == multiset(Reports(before2, after2, p))
  {
    forall i, j | 0 <= i < |before| && 0 <= j < |before2| && before[i] == before2[j]
      ensures Reports(before, after, p)[i] == Reports(before2, after2, p)[j]
    {
      FindShuffled(after, after2, before[i].id);
      ReportAt(before, after, p, i);
      ReportAt(before2, after2, p, j);
    }
    MappedBag(before, before2, Reports(before, after, p), Reports(before2, after2, p));
  }

  // ----- the same conclusion

  /** The same outcome; reports and reasons come in the order of the cases. */
  predicate SameOutcome(a: Comparison, b: Comparison) {
    && a.verdict == b.verdict && a.score == b.score
    && multiset(a.cases) == multiset(b.cases) && multiset(a.reasons) == multiset(b.reasons)
  }

  lemma {:induction false} ReasonsJoin(a: seq<CaseReport>, b: seq<CaseReport>, p: Policy)
    ensures Reasons(a + b, p) == Reasons(a, p) + Reasons(b, p)
    decreases |b|
  {
    if b == [] {
      assert a + b == a;
    } else {
      assert (a + b)[..|a + b| - 1] == a + b[..|b| - 1];
      ReasonsJoin(a, b[..|b| - 1], p);
    }
  }

  lemma ReasonsWithout(rs: seq<CaseReport>, k: nat, p: Policy)
    requires k < |rs|
    ensures multiset(Reasons(rs, p)) == multiset(Reasons(rs[..k] + rs[k + 1..], p)) + multiset(CaseReasons(rs[k], p))
  {
    hide CaseReasons;
    var front, back := rs[..k], rs[k + 1..];
    Around(rs, k);
    ReasonsJoin(front + [rs[k]], back, p);
    OneMoreReport(front, rs[k], p);
    ReasonsJoin(front, back, p);
  }

  lemma {:induction false} ReasonsShuffled(a: seq<CaseReport>, b: seq<CaseReport>, p: Policy)
    requires multiset(a) == multiset(b)
    ensures multiset(Reasons(a, p)) == multiset(Reasons(b, p))
    decreases |a|
  {
    if a == [] {
      SameLength(a, b);
    } else {
      var k := SameBagLast(a, b);
      ReasonsShuffled(a[..|a| - 1], b[..k] + b[k + 1..], p);
      ReasonsWithout(b, k, p);
    }
  }

  lemma VerdictShuffled(a: seq<Reason>, b: seq<Reason>)
    requires multiset(a) == multiset(b)
    ensures VerdictOf(a) == VerdictOf(b)
  {
    SameHeld(a, b);
    SameLength(a, b);
    assert (exists i :: 0 <= i < |a| && Doubtful(a[i])) <==> exists x :: x in a && Doubtful(x);
    assert (exists i :: 0 <= i < |b| && Doubtful(b[i])) <==> exists x :: x in b && Doubtful(x);
  }

  lemma ImprovesShuffled(a: seq<CaseReport>, b: seq<CaseReport>)
    requires multiset(a) == multiset(b)
    ensures Improves(a) ==> Improves(b)
  {
    if Improves(a) {
      var i :| 0 <= i < |a| && a[i].e2e.improvement;
      var j := InBag(b, a, i);
    }
  }

  lemma ConcludeShuffled(a: seq<CaseReport>, b: seq<CaseReport>, p: Policy)
    requires multiset(a) == multiset(b)
    ensures SameOutcome(Conclude(a, Reasons(a, p), Ratios(a, 1), Ratios(a, 2), p),
                        Conclude(b, Reasons(b, p), Ratios(b, 1), Ratios(b, 2), p))
  {
    hide Reasons, Ratios, VerdictOf, GainTooSmall, Improves, ScoreOf;
    ScoreOrderFree(a, b);
    ReasonsShuffled(a, b, p);
    ImprovesShuffled(a, b);
    ImprovesShuffled(b, a);
    var one := Conclude(a, Reasons(a, p), Ratios(a, 1), Ratios(a, 2), p);
    var two := Conclude(b, Reasons(b, p), Ratios(b, 1), Ratios(b, 2), p);
    VerdictShuffled(one.reasons, two.reasons);
  }

  lemma RowsCompareShuffled(before: seq<Row>, after: seq<Row>, before2: seq<Row>, after2: seq<Row>, p: Policy)
    requires TimedRows(before) && TimedRows(after) && TimedRows(before2) && TimedRows(after2)
    requires multiset(before) == multiset(before2) && multiset(after) == multiset(after2) && DistinctRows(after)
    requires SameCases(before, after) && SameCases(before2, after2)
    ensures SameOutcome(CompareRows(before, after, p), CompareRows(before2, after2, p))
  {
    hide Conclude, SameOutcome, TimedRow, Reasons, Ratios;
    ReportsShuffled(before, after, before2, after2, p);
    ConcludeShuffled(Reports(before, after, p), Reports(before2, after2, p), p);
  }

  lemma RowsCompareAlike(before: seq<Row>, after: seq<Row>, before2: seq<Row>, after2: seq<Row>, p: Policy)
    requires TimedRows(before) && TimedRows(after) && TimedRows(before2) && TimedRows(after2)
    requires RowsAlike(before, before2) && RowsAlike(after, after2)
    requires SameCases(before, after) && SameCases(before2, after2)
    ensures CompareRows(before, after, p) == CompareRows(before2, after2, p)
  {
    hide Conclude, TimedRow, Reasons, Ratios, RowsAlike;
    ReportsAlike(before, after, before2, after2, p);
  }

  // ----- whole records

  lemma RowsShuffled(a: seq<Case>, b: seq<Case>)
    requires multiset(a) == multiset(b)
    ensures multiset(Rows(a)) == multiset(Rows(b))
  {
    MappedBag(a, b, Rows(a), Rows(b));
  }

  lemma CompareShuffled(b: Record, c: Record, b2: Record, c2: Record, p: Policy)
    requires Shuffled(b, b2) && Shuffled(c, c2) && Comparable(b, c, p)
    ensures Comparable(b2, c2, p) && SameOutcome(Compared(b, c, p), Compared(b2, c2, p))
  {
    hide ValidSeries, SameCases, CompareRows, Rows, SampleIds, SameOutcome, TimedRows;
    ValidShuffled(b, b2, p);
    ValidShuffled(c, c2, p);
    RowsShuffled(b.cases, b2.cases);
    RowsShuffled(c.cases, c2.cases);
    ValidRowsDistinct(b, p);
    ValidRowsDistinct(c, p);
    SameCasesShuffled(Rows(b.cases), Rows(c.cases), Rows(b2.cases), Rows(c2.cases));
    TimedAll(b, c, b2, c2, p);
    RowsCompareShuffled(Rows(b.cases), Rows(c.cases), Rows(b2.cases), Rows(c2.cases), p);
  }

  lemma TimedAll(b: Record, c: Record, b2: Record, c2: Record, p: Policy)
    requires ValidPolicy(p) && ValidSeries(b, p) && ValidSeries(c, p) && ValidSeries(b2, p) && ValidSeries(c2, p)
    ensures TimedRows(Rows(b.cases)) && TimedRows(Rows(c.cases))
    ensures TimedRows(Rows(b2.cases)) && TimedRows(Rows(c2.cases))
  {
    hide ValidSeries, TimedRows;
    SeriesTimed(b, p);
    SeriesTimed(c, p);
    SeriesTimed(b2, p);
    SeriesTimed(c2, p);
  }

  lemma ValidRowsDistinct(r: Record, p: Policy)
    requires ValidSeries(r, p)
    ensures DistinctRows(Rows(r.cases))
  {
    DistinctCasesRows(r.cases);
  }

  lemma CompareResampled(b: Record, c: Record, b2: Record, c2: Record, p: Policy)
    requires Resampled(b, b2) && Resampled(c, c2) && Comparable(b, c, p)
    ensures Comparable(b2, c2, p) && Compared(b, c, p) == Compared(b2, c2, p)
  {
    hide ValidSeries, SameCases, CompareRows, Rows, SampleIds, TimedRows, RowsAlike;
    ValidResampled(b, b2, p);
    ValidResampled(c, c2, p);
    SameCasesAlike(Rows(b.cases), Rows(c.cases), Rows(b2.cases), Rows(c2.cases));
    TimedAll(b, c, b2, c2, p);
    RowsCompareAlike(Rows(b.cases), Rows(c.cases), Rows(b2.cases), Rows(c2.cases), p);
  }

  lemma AlikeBack(r: Record, s: Record)
    requires Resampled(r, s)
    ensures Resampled(s, r)
  {
    forall i | 0 <= i < |s.cases| ensures CaseAlike(s.cases[i], r.cases[i]) {
      assert CaseAlike(r.cases[i], s.cases[i]);
    }
  }

  lemma RearrangedCompares(b: Record, c: Record, b1: Record, c1: Record, b2: Record, c2: Record, p: Policy)
    requires Shuffled(b, b1) && Resampled(b1, b2) && Shuffled(c, c1) && Resampled(c1, c2)
    ensures Comparable(b, c, p) ==> Comparable(b2, c2, p) && SameOutcome(Compared(b, c, p), Compared(b2, c2, p))
    ensures Comparable(b2, c2, p) ==> Comparable(b, c, p)
  {
    hide Comparable, Shuffled, Resampled, SameOutcome;
    if Comparable(b, c, p) {
      CompareShuffled(b, c, b1, c1, p);
      CompareResampled(b1, c1, b2, c2, p);
    }
    if Comparable(b2, c2, p) {
      AlikeBack(b1, b2);
      AlikeBack(c1, c2);
      CompareResampled(b2, c2, b1, c1, p);
      ShuffledBack(b, b1);
      ShuffledBack(c, c1);
      CompareShuffled(b1, c1, b, c, p);
    }
  }

  lemma ShuffledBack(r: Record, s: Record)
    requires Shuffled(r, s)
    ensures Shuffled(s, r)
  {
  }

  /** Two records compare exactly when any rearrangements of them do, with the same verdict and score,
      and the same reports and reasons in the order of the cases. */
  lemma ComparisonOrderFree(b: Record, c: Record, b2: Record, c2: Record, p: Policy)
    requires Rearranged(b, b2) && Rearranged(c, c2)
    ensures Comparable(b, c, p) <==> Comparable(b2, c2, p)
    ensures Comparable(b, c, p) ==> SameOutcome(Compared(b, c, p), Compared(b2, c2, p))
  {
    var b1: Record :| Shuffled(b, b1) && Resampled(b1, b2);
    var c1: Record :| Shuffled(c, c1) && Resampled(c1, c2);
    RearrangedCompares(b, c, b1, c1, b2, c2, p);
  }
}
