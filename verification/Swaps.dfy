/** Exchanging baseline and candidate inverts the score, so the two cannot both win. */
module Swaps {
  import opened Results
  import opened Stats
  import opened Latency
  import opened Compare
  import opened Scores

  predicate Ids(rows: seq<Row>) {
    forall i, j :: 0 <= i < j < |rows| ==> rows[i].id != rows[j].id
  }

  predicate FoundAll(before: seq<Row>, after: seq<Row>) {
    forall i :: 0 <= i < |before| ==> Find(after, before[i].id).Some?
  }

  function Part(was: Row, now: Row, c: int): (r: seq<real>)
    requires TimedRow(was) && TimedRow(now)
  {
    MedianPositive(now.e2e);
    if was.concurrency == c then [Quotient(Median(was.e2e), Median(now.e2e))] else []
  }

  /** The ratios of one level, straight from the rows. */
  function RatiosOf(before: seq<Row>, after: seq<Row>, c: int): seq<real>
    requires TimedRows(before) && TimedRows(after) && FoundAll(before, after)
  {
    if before == [] then []
    else
      var last := before[|before| - 1];
      FoundIsThere(after, last.id);
      RatiosOf(before[..|before| - 1], after, c) + Part(last, Find(after, last.id).value, c)
  }

  lemma {:induction false} RatiosAre(before: seq<Row>, after: seq<Row>, c: int, p: Policy)
    requires TimedRows(before) && TimedRows(after) && FoundAll(before, after)
    ensures Ratios(Reports(before, after, p), c) == RatiosOf(before, after, c)
    decreases |before|
  {
    if before != [] {
      var front, last := before[..|before| - 1], before[|before| - 1];
      RatiosAre(front, after, c, p);
      FoundIsThere(after, last.id);
      OneMoreReport(Reports(front, after, p), ReportOf(last, Find(after, last.id).value, p), p);
    }
  }

  lemma {:induction false} FindWithout(front: seq<Row>, x: Row, back: seq<Row>, id: string)
    requires x.id != id
    ensures Find(front + [x] + back, id) == Find(front + back, id)
  {
    if front == [] {
      assert [] + [x] + back == [x] + back && ([x] + back)[1..] == back && [] + back == back;
    } else {
      FindWithout(front[1..], x, back, id);
      assert (front + [x] + back)[1..] == front[1..] + [x] + back;
      assert (front + back)[1..] == front[1..] + back;
    }
  }

  /** Dropping a row nobody looks for changes no ratio. */
  lemma {:induction false} DropTarget(before: seq<Row>, front: seq<Row>, x: Row, back: seq<Row>, c: int)
    requires TimedRows(before) && TimedRows(front + [x] + back) && TimedRows(front + back)
    requires FoundAll(before, front + [x] + back)
    requires forall i :: 0 <= i < |before| ==> before[i].id != x.id
    ensures FoundAll(before, front + back)
    ensures RatiosOf(before, front + [x] + back, c) == RatiosOf(before, front + back, c)
    decreases |before|
  {
    forall i | 0 <= i < |before|
      ensures Find(front + back, before[i].id).Some?
    {
      FindWithout(front, x, back, before[i].id);
    }
    if before != [] {
      DropTarget(before[..|before| - 1], front, x, back, c);
      FindWithout(front, x, back, before[|before| - 1].id);
    }
  }

  lemma SourceParts(x: seq<Row>, y: seq<Row>, t: seq<Row>)
    requires TimedRows(x + y) && FoundAll(x + y, t)
    ensures TimedRows(x) && TimedRows(y) && FoundAll(x, t) && FoundAll(y, t)
  {
    forall i | 0 <= i < |x| ensures TimedRow(x[i]) && Find(t, x[i].id).Some? { assert (x + y)[i] == x[i]; }
    forall i | 0 <= i < |y| ensures TimedRow(y[i]) && Find(t, y[i].id).Some? { assert (x + y)[|x| + i] == y[i]; }
  }

  lemma {:induction false} SplitSource(x: seq<Row>, y: seq<Row>, t: seq<Row>, c: int)
    requires TimedRows(x + y) && TimedRows(t) && FoundAll(x + y, t)
    ensures TimedRows(x) && TimedRows(y) && FoundAll(x, t) && FoundAll(y, t)
    ensures RatiosOf(x + y, t, c) == RatiosOf(x, t, c) + RatiosOf(y, t, c)
    decreases |y|
  {
    SourceParts(x, y, t);
    if y == [] {
      assert x + y == x;
    } else {
      var front := y[..|y| - 1];
      assert (x + y)[..|x + y| - 1] == x + front;
      assert x + front + [y[|y| - 1]] == x + y;
      SourceParts(x + front, [y[|y| - 1]], t);
      SplitSource(x, front, t, c);
    }
  }

  lemma PartsCancel(b: Row, a: Row, c: int)
    requires TimedRow(a) && TimedRow(b) && a.concurrency == b.concurrency
    ensures |Part(b, a, c)| == |Part(a, b, c)| && Times(Product(Part(b, a, c)), Product(Part(a, b, c))) == 1.0
  {
    MedianPositive(a.e2e);
    MedianPositive(b.e2e);
    var m, n := Median(b.e2e), Median(a.e2e);
    QuotientsCancel(m, n);
    assert Product([Quotient(m, n)]) == Times(Quotient(m, n), 1.0);
    assert Product([Quotient(n, m)]) == Times(Quotient(n, m), 1.0);
  }

  lemma QuotientsCancel(m: real, n: real)
    requires m > 0.0 && n > 0.0
    ensures Times(Times(Quotient(m, n), 1.0), Times(Quotient(n, m), 1.0)) == 1.0
  {
    var q, r := Quotient(m, n), Quotient(n, m);
    assert Times(q, n) == m && Times(r, m) == n;
    assert Times(Times(q, r), m) == Times(q, Times(r, m)) == m;
    OnlyOne(Times(q, r), m);
  }

  lemma OnlyOne(x: real, m: real)
    requires m > 0.0 && Times(x, m) == m
    ensures x == 1.0
  {
  }

  lemma Locate(rows: seq<Row>, id: string) returns (front: seq<Row>, x: Row, back: seq<Row>)
    requires Find(rows, id).Some?
    ensures rows == front + [x] + back && Find(rows, id) == Some(x) && x.id == id
  {
    FoundIsThere(rows, id);
    x := Find(rows, id).value;
    var j :| 0 <= j < |rows| && rows[j] == x;
    front, back := rows[..j], rows[j + 1..];
  }

  /** The rows that remain when one is taken out of a series. */
  lemma Remainder(front: seq<Row>, x: Row, back: seq<Row>)
    requires Ids(front + [x] + back) && TimedRows(front + [x] + back)
    ensures Ids(front + back) && TimedRows(front + back)
    ensures forall i :: 0 <= i < |front + back| ==>
      && (front + back)[i].id != x.id
      && (front + back)[i] == (front + [x] + back)[if i < |front| then i else i + 1]
  {
    var all, rest := front + [x] + back, front + back;
    assert all[|front|] == x;
    forall i | 0 <= i < |rest|
      ensures rest[i] == all[if i < |front| then i else i + 1] && rest[i].id != x.id && TimedRow(rest[i])
    {
      assert TimedRow(all[if i < |front| then i else i + 1]);
    }
    forall i, j | 0 <= i < j < |rest|
      ensures rest[i].id != rest[j].id
    {
      var k, l := if i < |front| then i else i + 1, if j < |front| then j else j + 1;
      assert all[k].id != all[l].id;
    }
  }

  /** What remains when a matched pair is taken out of both series. */
  lemma TakeOut(front1: seq<Row>, b: Row, front: seq<Row>, a: Row, back: seq<Row>)
    requires Ids(front1 + [b] + []) && Ids(front + [a] + back)
    requires TimedRows(front1 + [b] + []) && TimedRows(front + [a] + back)
    requires SameCases(front1 + [b] + [], front + [a] + back) && a.id == b.id
    ensures Ids(front1 + []) && Ids(front + back) && TimedRows(front1 + []) && TimedRows(front + back)
    ensures forall i :: 0 <= i < |front1 + []| ==> (front1 + [])[i].id != a.id
    ensures forall i :: 0 <= i < |front + back| ==> (front + back)[i].id != b.id
    ensures SameCases(front1 + [], front + back)
  {
    Remainder(front1, b, []);
    Remainder(front, a, back);
    var before, after, rest1, rest := front1 + [b] + [], front + [a] + back, front1 + [], front + back;
    forall i | 0 <= i < |rest1|
      ensures Matched(rest1[i], rest)
    {
      assert Matched(before[i], after);
      FindWithout(front, a, back, rest1[i].id);
    }
    forall i | 0 <= i < |rest|
      ensures Find(rest1, rest[i].id).Some?
    {
      assert Find(before, after[if i < |front| then i else i + 1].id).Some?;
      FindWithout(front1, b, [], rest[i].id);
    }
  }

  lemma Fourfold(p: real, q: real, r: real, s: real)
    requires Times(p, r) == 1.0 && Times(q, s) == 1.0
    ensures Times(Times(p, q), Times(r, s)) == 1.0
  {
    Regroup(p, q, r, s);
  }

  /** The ratios one way and the ratios the other way multiply to one, level by level. */
  lemma {:induction false} SwapProduct(before: seq<Row>, after: seq<Row>, c: int)
    requires Ids(before) && Ids(after) && SameCases(before, after) && TimedRows(before) && TimedRows(after)
    ensures FoundAll(before, after) && FoundAll(after, before)
    ensures |RatiosOf(before, after, c)| == |RatiosOf(after, before, c)|
    ensures Times(Product(RatiosOf(before, after, c)), Product(RatiosOf(after, before, c))) == 1.0
    decreases |before|
  {
    forall i | 0 <= i < |before|
      ensures Find(after, before[i].id).Some?
    {
      assert Matched(before[i], after);
    }
    if before == [] {
      assert after == [] || Find(before, after[0].id).Some?;
    } else {
      var front1, b := before[..|before| - 1], before[|before| - 1];
      assert before == front1 + [b] == front1 + [b] + [] && front1 + [] == front1;
      assert Matched(before[|before| - 1], after);
      var front, a, back := Locate(after, b.id);
      TakeOut(front1, b, front, a, back);
      SwapProduct(front1, front + back, c);
      ForwardStep(front1, b, front, a, back, c);
      BackwardStep(front1, b, front, a, back, c);
      PartsCancel(b, a, c);
      Fourfold(Product(RatiosOf(front1, front + back, c)), Product(Part(b, a, c)),
               Product(RatiosOf(front + back, front1, c)), Product(Part(a, b, c)));
    }
  }

  lemma ForwardStep(front1: seq<Row>, b: Row, front: seq<Row>, a: Row, back: seq<Row>, c: int)
    requires TimedRows(front1 + [b]) && TimedRows(front + [a] + back) && TimedRows(front + back) && TimedRows(front1)
    requires FoundAll(front1 + [b], front + [a] + back) && Find(front + [a] + back, b.id) == Some(a)
    requires forall i :: 0 <= i < |front1| ==> front1[i].id != a.id
    ensures FoundAll(front1, front + back) && TimedRow(a) && TimedRow(b)
    ensures var r := RatiosOf(front1 + [b], front + [a] + back, c);
            && |r| == |RatiosOf(front1, front + back, c)| + |Part(b, a, c)|
            && Product(r) == Times(Product(RatiosOf(front1, front + back, c)), Product(Part(b, a, c)))
  {
    assert (front1 + [b])[|front1|] == b && (front + [a] + back)[|front|] == a;
    assert (front1 + [b])[..|front1|] == front1;
    assert forall i :: 0 <= i < |front1| ==> (front1 + [b])[i] == front1[i];
    DropTarget(front1, front, a, back, c);
    ProductJoin(RatiosOf(front1, front + back, c), Part(b, a, c));
  }

  lemma BackwardStep(front1: seq<Row>, b: Row, front: seq<Row>, a: Row, back: seq<Row>, c: int)
    requires TimedRows(front1 + [b]) && TimedRows(front + [a] + back) && TimedRows(front + back) && TimedRows(front1)
    requires FoundAll(front + [a] + back, front1 + [b]) && FoundAll(front + back, front1)
    requires a.id == b.id && Ids(front1 + [b])
    requires forall i :: 0 <= i < |front + back| ==> (front + back)[i].id != b.id
    ensures TimedRow(a) && TimedRow(b)
    ensures var r := RatiosOf(front + [a] + back, front1 + [b], c);
            && |r| == |RatiosOf(front + back, front1, c)| + |Part(a, b, c)|
            && Product(r) == Times(Product(RatiosOf(front + back, front1, c)), Product(Part(a, b, c)))
  {
    var before := front1 + [b];
    assert before[|front1|] == b && (front + [a] + back)[|front|] == a;
    SplitSource(front + [a], back, before, c);
    SplitSource(front, [a], before, c);
    assert before == front1 + [b] + [] && front1 + [] == front1;
    assert forall i :: 0 <= i < |front| ==> (front + back)[i] == front[i];
    assert forall i :: 0 <= i < |back| ==> (front + back)[|front| + i] == back[i];
    DropTarget(front, front1, b, [], c);
    DropTarget(back, front1, b, [], c);
    SplitSource(front, back, front1, c);
    FoundSelf(front1, b);
    assert RatiosOf([a], before, c) == Part(a, b, c) by {
      assert [a][..0] == [];
    }
    var f, g, k := RatiosOf(front, front1, c), Part(a, b, c), RatiosOf(back, front1, c);
    ProductJoin(f + g, k);
    ProductJoin(f, g);
    ProductJoin(f, k);
    MoveLast(Product(f), Product(g), Product(k));
  }

  lemma MoveLast(f: real, g: real, k: real)
    ensures Times(Times(f, g), k) == Times(Times(f, k), g)
  {
  }

  lemma {:induction false} FoundSelf(front: seq<Row>, b: Row)
    requires Ids(front + [b])
    ensures Find(front + [b], b.id) == Some(b)
    decreases |front|
  {
    var rows := front + [b];
    if front != [] {
      assert rows[0] == front[0] && rows[|front|] == b;
      assert rows[1..] == front[1..] + [b];
      assert forall i, j :: 0 <= i < j < |rows[1..]| ==> rows[1..][i] == rows[i + 1] && rows[1..][j] == rows[j + 1];
      FoundSelf(front[1..], b);
    }
  }

  lemma SwappedMatch(before: seq<Row>, after: seq<Row>)
    requires Ids(before) && Ids(after) && SameCases(before, after)
    ensures SameCases(after, before)
  {
    forall i | 0 <= i < |after|
      ensures Matched(after[i], before)
    {
      FoundIsThere(before, after[i].id);
      var was := Find(before, after[i].id).value;
      var k :| 0 <= k < |before| && before[k] == was;
      assert Matched(before[k], after);
      FoundIsThere(after, was.id);
      var j :| 0 <= j < |after| && after[j] == Find(after, was.id).value;
      assert j == i;
    }
    forall k | 0 <= k < |before|
      ensures Find(after, before[k].id).Some?
    {
      assert Matched(before[k], after);
    }
  }

  /** Swapping baseline and candidate inverts the score: same root, reciprocal value. */
  lemma SwapInverts(before: seq<Row>, after: seq<Row>, p: Policy)
    requires Ids(before) && Ids(after) && SameCases(before, after) && TimedRows(before) && TimedRows(after)
    ensures SameCases(after, before)
    ensures var s, t := CompareRows(before, after, p).score, CompareRows(after, before, p).score;
            t.root == s.root && Times(s.value, t.value) == 1.0
  {
    SwappedMatch(before, after);
    SwapProduct(before, after, 1);
    SwapProduct(before, after, 2);
    RatiosAre(before, after, 1, p);
    RatiosAre(before, after, 2, p);
    RatiosAre(after, before, 1, p);
    RatiosAre(after, before, 2, p);
    var a, b := RatiosOf(before, after, 1), RatiosOf(before, after, 2);
    var c, d := RatiosOf(after, before, 1), RatiosOf(after, before, 2);
    PowersCancel(Product(a), Product(c), |b|);
    PowersCancel(Product(b), Product(d), |a|);
    Fourfold(Power(Product(a), |b|), Power(Product(b), |a|), Power(Product(c), |b|), Power(Product(d), |a|));
  }

  lemma PowersCancel(x: real, y: real, n: nat)
    requires Times(x, y) == 1.0
    ensures Times(Power(x, n), Power(y, n)) == 1.0
  {
    PowerOfProduct(x, y, n);
    PowerOfOne(n);
  }

  predicate HasLevel(rows: seq<Row>, c: int) {
    exists i :: 0 <= i < |rows| && rows[i].concurrency == c
  }

  lemma {:induction false} LevelHasRatio(before: seq<Row>, after: seq<Row>, c: int)
    requires TimedRows(before) && TimedRows(after) && FoundAll(before, after) && HasLevel(before, c)
    ensures RatiosOf(before, after, c) != []
    decreases |before|
  {
    var front := before[..|before| - 1];
    if before[|before| - 1].concurrency != c {
      var i :| 0 <= i < |before| && before[i].concurrency == c;
      assert front[i].concurrency == c;
      LevelHasRatio(front, after, c);
    }
  }

  lemma {:induction false} PowerAboveOne(x: real, n: nat)
    requires x > 1.0 && n > 0
    ensures Power(x, n) > 1.0
  {
    if n > 1 {
      PowerAboveOne(x, n - 1);
    }
  }

  lemma Reciprocals(s: real, t: real, g: real)
    requires g > 1.0 && s >= g && Times(s, t) == 1.0
    ensures t < g
  {
  }

  lemma KeepHasGain(c: Comparison, rs: seq<CaseReport>, reasons: seq<Reason>, one: seq<real>, two: seq<real>, p: Policy)
    requires c == Conclude(rs, reasons, one, two, p) && c.verdict == Keep
    ensures !GainTooSmall(c.score, p)
  {
  }

  /** No pair of series that both hold C1 and C2 cases can be KEEP in both directions. */
  lemma NeverBothKeep(before: seq<Row>, after: seq<Row>, p: Policy)
    requires ValidPolicy(p) && HasLevel(before, 1) && HasLevel(before, 2)
    requires Ids(before) && Ids(after) && SameCases(before, after) && TimedRows(before) && TimedRows(after)
    requires CompareRows(before, after, p).verdict == Keep
    ensures SameCases(after, before) && CompareRows(after, before, p).verdict != Keep
  {
    SwapInverts(before, after, p);
    SwapProduct(before, after, 1);
    LevelHasRatio(before, after, 1);
    LevelHasRatio(before, after, 2);
    RatiosAre(before, after, 1, p);
    RatiosAre(before, after, 2, p);
    var rs, back := Reports(before, after, p), Reports(after, before, p);
    var s, t := CompareRows(before, after, p).score, CompareRows(after, before, p).score;
    KeepHasGain(CompareRows(before, after, p), rs, Reasons(rs, p), Ratios(rs, 1), Ratios(rs, 2), p);
    RootPositive(|Ratios(rs, 1)|, |Ratios(rs, 2)|);
    PowerAboveOne(1.0 + p.minimumGain / 100.0, s.root);
    Reciprocals(s.value, t.value, Power(1.0 + p.minimumGain / 100.0, s.root));
    if CompareRows(after, before, p).verdict == Keep {
      KeepHasGain(CompareRows(after, before, p), back, Reasons(back, p), Ratios(back, 1), Ratios(back, 2), p);
    }
  }

  /** Validated records give series to which all of this applies. */
  lemma SeriesShape(r: Record, p: Policy)
    requires ValidPolicy(p) && ValidSeries(r, p)
    ensures Ids(Rows(r.cases)) && TimedRows(Rows(r.cases)) && HasLevel(Rows(r.cases), 1) && HasLevel(Rows(r.cases), 2)
  {
    SeriesTimed(r, p);
    LevelsOf(r.cases);
    IdsOfRows(r.cases);
  }

  lemma LevelsOf(cases: seq<Case>)
    requires BothConcurrencies(cases)
    ensures HasLevel(Rows(cases), 1) && HasLevel(Rows(cases), 2)
  {
    var i :| 0 <= i < |cases| && cases[i].concurrency == 1;
    assert Rows(cases)[i].concurrency == 1;
    var j :| 0 <= j < |cases| && cases[j].concurrency == 2;
    assert Rows(cases)[j].concurrency == 2;
  }

  lemma IdsOfRows(cases: seq<Case>)
    requires DistinctCases(cases)
    ensures Ids(Rows(cases))
  {
  }

  /** Two measurement records are never each better than the other. */
  lemma RecordsNeverBothKeep(b: Record, c: Record, p: Policy)
    requires Comparable(b, c, p)
    ensures Comparable(c, b, p)
    ensures Compared(b, c, p).verdict == Keep ==> Compared(c, b, p).verdict != Keep
  {
    SeriesShape(b, p);
    SeriesShape(c, p);
    SwappedMatch(Rows(b.cases), Rows(c.cases));
    assert Members(SampleIds(c.cases)) * Members(SampleIds(b.cases)) == {};
    if Compared(b, c, p).verdict == Keep {
      NeverBothKeep(Rows(b.cases), Rows(c.cases), p);
    }
  }
}
