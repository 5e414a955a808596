/** The balanced score: what it stands for, and what leaves it alone. */
module Scores {
  import opened Results
  import opened Stats
  import opened Latency
  import opened Compare

  // ----- the power and root stand for the square root of the two geometric means

  /** With g1 and g2 the geometric means of the two levels and s the square root of their product,
      the gain test is (s - 1) * 100 < minimum gain. */
  lemma ScoreMeaning(one: seq<real>, two: seq<real>, g1: real, g2: real, s: real, p: Policy)
    requires one != [] && two != [] && g1 > 0.0 && g2 > 0.0 && s > 0.0 && p.minimumGain > 0.0
    requires Power(g1, |one|) == Product(one) && Power(g2, |two|) == Product(two) && Times(s, s) == Times(g1, g2)
    ensures ScoreOf(one, two).value == Power(s, ScoreOf(one, two).root)
    ensures GainTooSmall(ScoreOf(one, two), p) <==> (s - 1.0) * 100.0 < p.minimumGain
  {
    var t := 1.0 + p.minimumGain / 100.0;
    RootParts(|one|, |two|);
    ScoreIsRoot(Product(one), Product(two), |one|, |two|, |one| * |two|, g1, g2, s);
    RootPositive(|one|, |two|);
    PowerOrder(s, t, 2 * |one| * |two|);
    GainBelow(s, p.minimumGain);
  }

  lemma GainBelow(s: real, g: real)
    ensures s < 1.0 + g / 100.0 <==> (s - 1.0) * 100.0 < g
  {
  }

  lemma RootParts(m: nat, n: nat)
    ensures 2 * m * n == m * n + m * n && m * n >= 0
  {
  }

  lemma PowerBy(x: real, m: nat, n: nat, k: nat)
    requires k == m * n
    ensures Power(Power(x, m), n) == Power(x, k)
  {
    PowerMul(x, m, n);
  }

  lemma ScoreIsRoot(p1: real, p2: real, m: nat, n: nat, k: nat, g1: real, g2: real, s: real)
    requires Power(g1, m) == p1 && Power(g2, n) == p2 && Times(s, s) == Times(g1, g2) && k == m * n
    ensures Times(Power(p1, n), Power(p2, m)) == Power(s, k + k)
  {
    PowerBy(g1, m, n, k);
    PowerBy(g2, n, m, k);
    SquareRoot(g1, g2, s, k);
  }

  lemma SquareRoot(g1: real, g2: real, s: real, k: nat)
    requires Times(s, s) == Times(g1, g2)
    ensures Times(Power(g1, k), Power(g2, k)) == Power(s, k + k)
  {
    PowerOfProduct(g1, g2, k);
    PowerOfProduct(s, s, k);
    PowerAdd(s, k, k);
  }

  lemma RootPositive(m: nat, n: nat)
    requires m > 0 && n > 0
    ensures 2 * m * n > 0
  {
  }

  // ----- order

  /** An axis does not depend on the order of its samples. */
  lemma AxisOrderFree(b1: seq<real>, b2: seq<real>, a1: seq<real>, a2: seq<real>, p: Policy)
    requires Timed(b1) && Timed(b2) && Timed(a1) && Timed(a2)
    requires multiset(b1) == multiset(b2) && multiset(a1) == multiset(a2)
    ensures AxisOf(b1, a1, p) == AxisOf(b2, a2, p)
  {
    OrderFree(b1, b2);
    OrderFree(a1, a2);
  }

  lemma {:induction false} RatiosJoin(a: seq<CaseReport>, b: seq<CaseReport>, c: int)
    ensures Ratios(a + b, c) == Ratios(a, c) + Ratios(b, c)
    decreases |b|
  {
    if b == [] {
      assert a + b == a;
    } else {
      assert (a + b)[..|a + b| - 1] == a + b[..|b| - 1];
      RatiosJoin(a, b[..|b| - 1], c);
    }
  }

  lemma RatiosPick(rs: seq<CaseReport>, r: CaseReport, c: int) returns (rest: seq<CaseReport>)
    requires r in multiset(rs)
    ensures multiset(rest) == multiset(rs) - multiset{r}
    ensures multiset(Ratios(rs, c)) == multiset(Ratios(rest, c)) + multiset(Ratios([r], c))
  {
    var i :| 0 <= i < |rs| && rs[i] == r;
    var front, back := rs[..i], rs[i + 1..];
    assert rs == front + [r] + back;
    RatiosJoin(front + [r], back, c);
    RatiosJoin(front, [r], c);
    RatiosJoin(front, back, c);
    rest := front + back;
  }

  /** The score does not depend on the order of the cases. */
  lemma {:induction false} CasesOrderFree(a: seq<CaseReport>, b: seq<CaseReport>, c: int)
    requires multiset(a) == multiset(b)
    ensures multiset(Ratios(a, c)) == multiset(Ratios(b, c))
    decreases |a|
  {
    if a != [] {
      var r := a[0];
      assert r in multiset(a);
      var resta := RatiosPick(a, r, c);
      var restb := RatiosPick(b, r, c);
      assert |multiset(resta)| == |multiset(a)| - 1;
      CasesOrderFree(resta, restb, c);
    } else {
      assert |multiset(b)| == 0;
    }
  }

  lemma ScoreOrderFree(a: seq<CaseReport>, b: seq<CaseReport>)
    requires multiset(a) == multiset(b)
    ensures ScoreOf(Ratios(a, 1), Ratios(a, 2)) == ScoreOf(Ratios(b, 1), Ratios(b, 2))
  {
    CasesOrderFree(a, b, 1);
    CasesOrderFree(a, b, 2);
    ProductOrderFree(Ratios(a, 1), Ratios(b, 1));
    ProductOrderFree(Ratios(a, 2), Ratios(b, 2));
  }

  // ----- replication

  lemma ScorePositive(one: seq<real>, two: seq<real>)
    requires Positive(one) && Positive(two)
    ensures ScoreOf(one, two).value > 0.0
  {
    ProductPositive(one);
    ProductPositive(two);
    PowerPositive(Product(one), |two|);
    PowerPositive(Product(two), |one|);
  }

  /** Repeating every case of one concurrency level any number of times raises value and root alike,
      and so changes no gain verdict: more C1 requests cannot dominate. */
  lemma ReplicationFree(one: seq<real>, two: seq<real>, k: nat, p: Policy)
    requires one != [] && two != [] && k > 0 && Positive(one) && Positive(two) && p.minimumGain > 0.0
    ensures ScoreOf(Repeat(one, k), two).value == Power(ScoreOf(one, two).value, k)
    ensures ScoreOf(Repeat(one, k), two).root == k * ScoreOf(one, two).root
    ensures GainTooSmall(ScoreOf(Repeat(one, k), two), p) <==> GainTooSmall(ScoreOf(one, two), p)
  {
    var m, n := |one|, |two|;
    var t := 1.0 + p.minimumGain / 100.0;
    ProductOfRepeat(one, k);
    PowerMul(Product(one), k, n);
    PowerMul(Product(one), n, k);
    assert k * n == n * k;
    PowerMul(Product(two), m, k);
    assert k * m == m * k;
    PowerOfProduct(Power(Product(one), n), Power(Product(two), m), k);
    var root := 2 * m * n;
    RootScales(m, n, k);
    PowerMul(t, root, k);
    ScorePositive(one, two);
    PowerPositive(t, root);
    PowerOrder(ScoreOf(one, two).value, Power(t, root), k);
  }

  /** The score treats both levels alike. */
  lemma ScoreSymmetric(one: seq<real>, two: seq<real>)
    ensures ScoreOf(one, two) == ScoreOf(two, one)
  {
    Commute(Power(Product(one), |two|), Power(Product(two), |one|));
    assert 2 * |one| * |two| == 2 * |two| * |one|;
  }

  lemma Commute(a: real, b: real)
    ensures Times(a, b) == Times(b, a)
  {
  }

  lemma ReplicationFreeTwo(one: seq<real>, two: seq<real>, k: nat, p: Policy)
    requires one != [] && two != [] && k > 0 && Positive(one) && Positive(two) && p.minimumGain > 0.0
    ensures GainTooSmall(ScoreOf(one, Repeat(two, k)), p) <==> GainTooSmall(ScoreOf(one, two), p)
  {
    ScoreSymmetric(one, Repeat(two, k));
    ScoreSymmetric(one, two);
    ReplicationFree(two, one, k, p);
  }

  function Copies<T>(x: T, k: nat): seq<T> {
    if k == 0 then [] else Copies(x, k - 1) + [x]
  }

  /** The case reports with every case of one level listed `k` times. */
  function Replicated(rs: seq<CaseReport>, c: int, k: nat): seq<CaseReport> {
    if rs == [] then []
    else
      var last := rs[|rs| - 1];
      Replicated(rs[..|rs| - 1], c, k) + if last.concurrency == c then Copies(last, k) else [last]
  }

  lemma {:induction false} CopiesRatios(r: CaseReport, k: nat, c: int)
    ensures Ratios(Copies(r, k), c) == if r.concurrency == c then Copies(r.e2e.ratio, k) else []
  {
    if k > 0 {
      CopiesRatios(r, k - 1, c);
      RatiosJoin(Copies(r, k - 1), [r], c);
      RatiosOne(r, c);
    }
  }

  lemma RatiosOne(r: CaseReport, c: int)
    ensures Ratios([r], c) == if r.concurrency == c then [r.e2e.ratio] else []
  {
    assert [r][..0] == [];
  }

  lemma {:induction false} CopiesProduct(x: real, k: nat)
    ensures |Copies(x, k)| == k && Product(Copies(x, k)) == Power(x, k)
  {
    if k > 0 {
      CopiesProduct(x, k - 1);
      ProductJoin(Copies(x, k - 1), [x]);
      ProductHead(x, []);
      assert [x] + [] == [x];
      Commute(Power(x, k - 1), x);
    }
  }

  lemma {:induction false} ReplicatedOther(rs: seq<CaseReport>, c: int, k: nat, d: int)
    requires d != c
    ensures Ratios(Replicated(rs, c, k), d) == Ratios(rs, d)
  {
    if rs != [] {
      var front, last := rs[..|rs| - 1], rs[|rs| - 1];
      ReplicatedOther(front, c, k, d);
      RatiosJoin(Replicated(front, c, k), if last.concurrency == c then Copies(last, k) else [last], d);
      CopiesRatios(last, k, d);
      RatiosOne(last, d);
    }
  }

  /** What one more case adds to the ratios of its level, plain and replicated. */
  lemma ReplicatedNext(rs: seq<CaseReport>, c: int, k: nat)
    requires rs != []
    ensures var front, last := rs[..|rs| - 1], rs[|rs| - 1];
            && Ratios(rs, c) == Ratios(front, c) + (if last.concurrency == c then [last.e2e.ratio] else [])
            && Ratios(Replicated(rs, c, k), c) == Ratios(Replicated(front, c, k), c)
                 + (if last.concurrency == c then Copies(last.e2e.ratio, k) else [])
  {
    var front, last := rs[..|rs| - 1], rs[|rs| - 1];
    RatiosJoin(Replicated(front, c, k), if last.concurrency == c then Copies(last, k) else [last], c);
    CopiesRatios(last, k, c);
    RatiosOne(last, c);
  }

  /** These ratios are `k` times as many, and their product the power. */
  predicate Multiplied(ratios: seq<real>, copied: seq<real>, k: nat) {
    |copied| == k * |ratios| && Product(copied) == Power(Product(ratios), k)
  }

  lemma {:induction false} ReplicatedLevel(rs: seq<CaseReport>, c: int, k: nat)
    ensures Multiplied(Ratios(rs, c), Ratios(Replicated(rs, c, k), c), k)
  {
    if rs == [] {
      PowerOfOne(k);
    } else {
      var front, last := rs[..|rs| - 1], rs[|rs| - 1];
      ReplicatedLevel(front, c, k);
      ReplicatedNext(rs, c, k);
      var before, copied := Ratios(front, c), Ratios(Replicated(front, c, k), c);
      if last.concurrency == c {
        LevelGrows(before, last.e2e.ratio, copied, k);
      } else {
        assert before + [] == before && copied + [] == copied;
      }
    }
  }

  lemma LevelGrows(ratios: seq<real>, x: real, copied: seq<real>, k: nat)
    requires Multiplied(ratios, copied, k)
    ensures Multiplied(ratios + [x], copied + Copies(x, k), k)
  {
    CopiesProduct(x, k);
    ProductJoin(copied, Copies(x, k));
    ProductJoin(ratios, [x]);
    ProductHead(x, []);
    assert [x] + [] == [x];
    PowerOfProduct(Product(ratios), x, k);
    assert k * (|ratios| + 1) == k * |ratios| + k;
  }

  predicate Scored(rs: seq<CaseReport>) {
    && Ratios(rs, 1) != [] && Positive(Ratios(rs, 1)) && Ratios(rs, 2) != [] && Positive(Ratios(rs, 2))
  }

  /** Listing every case of either level any number of times changes no gain verdict. */
  lemma ReplicatedGain(rs: seq<CaseReport>, c: int, k: nat, p: Policy)
    requires Scored(rs) && (c == 1 || c == 2) && k > 0 && p.minimumGain > 0.0
    ensures GainTooSmall(ScoreOf(Ratios(Replicated(rs, c, k), 1), Ratios(Replicated(rs, c, k), 2)), p)
       <==> GainTooSmall(ScoreOf(Ratios(rs, 1), Ratios(rs, 2)), p)
  {
    var one, two := Ratios(rs, 1), Ratios(rs, 2);
    ReplicatedLevel(rs, c, k);
    ProductOfRepeat(if c == 1 then one else two, k);
    if c == 1 {
      ReplicatedOther(rs, 1, k, 2);
      ReplicationFree(one, two, k, p);
    } else {
      ReplicatedOther(rs, 2, k, 1);
      ReplicationFreeTwo(one, two, k, p);
    }
  }

  // ----- the verdict of replicated cases

  lemma {:induction false} CopiesHold(r: CaseReport, k: nat, x: CaseReport)
    ensures x in Copies(r, k) <==> x == r && k > 0
  {
    if k > 0 { CopiesHold(r, k - 1, x); }
  }

  lemma {:induction false} ReplicatedHold(rs: seq<CaseReport>, c: int, k: nat, x: CaseReport)
    requires k > 0
    ensures x in Replicated(rs, c, k) <==> x in rs
  {
    if rs != [] {
      var front, last := rs[..|rs| - 1], rs[|rs| - 1];
      ReplicatedHold(front, c, k, x);
      CopiesHold(last, k, x);
      assert rs == front + [last];
    }
  }

  lemma {:induction false} ReasonFrom(rs: seq<CaseReport>, p: Policy, reason: Reason)
    ensures reason in Reasons(rs, p) <==> exists x :: x in rs && reason in CaseReasons(x, p)
  {
    if rs != [] {
      var front, last := rs[..|rs| - 1], rs[|rs| - 1];
      ReasonFrom(front, p, reason);
      assert rs == front + [last];
      if reason in CaseReasons(last, p) { assert last in rs; }
    }
  }

  lemma SameReasons(one: seq<CaseReport>, two: seq<CaseReport>, p: Policy)
    requires forall x :: x in one <==> x in two
    ensures forall reason :: reason in Reasons(one, p) <==> reason in Reasons(two, p)
    ensures Improves(one) <==> Improves(two)
  {
    forall reason ensures reason in Reasons(one, p) <==> reason in Reasons(two, p) {
      ReasonFrom(one, p, reason);
      ReasonFrom(two, p, reason);
    }
    ImprovesIn(one);
    ImprovesIn(two);
  }

  lemma ImprovesIn(rs: seq<CaseReport>)
    ensures Improves(rs) <==> exists x :: x in rs && x.e2e.improvement
  {
    if Improves(rs) {
      var i :| 0 <= i < |rs| && rs[i].e2e.improvement;
      assert rs[i] in rs;
    }
  }

  lemma SameVerdict(one: seq<Reason>, two: seq<Reason>)
    requires forall reason :: reason in one <==> reason in two
    ensures VerdictOf(one) == VerdictOf(two)
  {
    if one != [] { assert one[0] in two; }
    if two != [] { assert two[0] in one; }
    forall i | 0 <= i < |one| && Doubtful(one[i]) ensures exists j :: 0 <= j < |two| && Doubtful(two[j]) {
      assert one[i] in two;
    }
    forall j | 0 <= j < |two| && Doubtful(two[j]) ensures exists i :: 0 <= i < |one| && Doubtful(one[i]) {
      assert two[j] in one;
    }
  }

  function Concluded(rs: seq<CaseReport>, p: Policy): Comparison {
    Conclude(rs, Reasons(rs, p), Ratios(rs, 1), Ratios(rs, 2), p)
  }

  /** Listing every case of either level any number of times changes no verdict: more C1 requests
      cannot dominate, and cannot hide a reason either. */
  lemma ReplicationKeepsVerdict(rs: seq<CaseReport>, c: int, k: nat, p: Policy)
    requires Scored(rs) && (c == 1 || c == 2) && k > 0 && p.minimumGain > 0.0
    ensures Concluded(Replicated(rs, c, k), p).verdict == Concluded(rs, p).verdict
  {
    var all := Replicated(rs, c, k);
    ReplicatedGain(rs, c, k, p);
    forall x ensures x in all <==> x in rs { ReplicatedHold(rs, c, k, x); }
    SameReasons(all, rs, p);
    SameVerdict(Concluded(all, p).reasons, Concluded(rs, p).reasons);
  }

  lemma RootScales(m: nat, n: nat, k: nat)
    ensures 2 * (k * m) * n == k * (2 * m * n) == (2 * m * n) * k
  {
  }

  // ----- units

  lemma TimesDivide(x: real, y: real, k: real)
    requires y > 0.0 && k > 0.0
    ensures Times(y, k) > 0.0 && Times(x, k) / Times(y, k) == x / y
  {
    assert Times(x / y, Times(y, k)) == Times(x, k);
  }

  lemma BandScales(m: real, a: real, b: real, k: real, p: Policy)
    requires k > 0.0
    ensures BandOf(Times(m, k), Times(a, k), Times(b, k), p) == Times(BandOf(m, a, b, p), k)
  {
    TimesOrder(a, b, k);
    TimesOrder(b, a, k);
    assert Times(m, k) * p.noiseFloor / 100.0 == Times(m * p.noiseFloor / 100.0, k);
    TimesOrder(m * p.noiseFloor / 100.0, Larger(a, b), k);
    TimesOrder(Larger(a, b), m * p.noiseFloor / 100.0, k);
  }

  lemma DifferenceScales(m: real, n: real, band: real, k: real)
    requires k > 0.0
    ensures Times(n, k) - Times(m, k) > Times(band, k) <==> n - m > band
  {
    assert Times(n, k) - Times(m, k) == Times(n - m, k);
    TimesOrder(n - m, band, k);
  }

  lemma StableScales(m: real, n: real, a: real, b: real, k: real, p: Policy)
    requires m > 0.0 && n > 0.0 && k > 0.0 && Times(m, k) > 0.0 && Times(n, k) > 0.0
    ensures StableOf(Times(m, k), Times(n, k), Times(a, k), Times(b, k), p) <==> StableOf(m, n, a, b, p)
  {
    TimesDivide(a, m, k);
    TimesDivide(b, n, k);
  }

  lemma QuotientScales(m: real, n: real, k: real)
    requires m > 0.0 && n > 0.0 && k > 0.0
    ensures Times(m, k) > 0.0 && Times(n, k) > 0.0 && Quotient(Times(m, k), Times(n, k)) == Quotient(m, n)
  {
    TimesDivide(m, n, k);
    TimesDivide(n, m, k);
  }

  predicate SameFlags(s: Axis, t: Axis) {
    s.stable == t.stable && s.regression == t.regression && s.improvement == t.improvement && s.ratio == t.ratio
  }

  lemma MadeAxisScales(m: real, n: real, a: real, b: real, k: real, p: Policy)
    requires m > 0.0 && n > 0.0 && k > 0.0
    ensures Times(m, k) > 0.0 && Times(n, k) > 0.0
    ensures SameFlags(MakeAxis(m, n, a, b, p), MakeAxis(Times(m, k), Times(n, k), Times(a, k), Times(b, k), p))
  {
    QuotientScales(m, n, k);
    StableScales(m, n, a, b, k, p);
    BandScales(m, a, b, k, p);
    DifferenceScales(m, n, BandOf(m, a, b, p), k);
    DifferenceScales(n, m, BandOf(m, a, b, p), k);
  }

  /** Measuring all times in another unit changes no flag and no ratio. */
  lemma AxisUnitFree(before: seq<real>, after: seq<real>, k: real, p: Policy)
    requires Timed(before) && Timed(after) && k > 0.0
    ensures Timed(Scale(before, k)) && Timed(Scale(after, k))
    ensures SameFlags(AxisOf(before, after, p), AxisOf(Scale(before, k), Scale(after, k), p))
  {
    ScaleTimed(before, k);
    ScaleTimed(after, k);
    StatisticsScale(before, k);
    StatisticsScale(after, k);
    MedianPositive(before);
    MedianPositive(after);
    MadeAxisScales(Median(before), Median(after), Range(before), Range(after), k, p);
  }

  lemma ScaleTimed(s: seq<real>, k: real)
    requires Timed(s) && k > 0.0
    ensures Timed(Scale(s, k))
  {
    forall i | 0 <= i < |s|
      ensures Scale(s, k)[i] > 0.0
    {
      ScaleAt(s, k, i);
      TimesOrder(s[i], 0.0, k);
    }
  }
}
