/** Token and time accounting of one streamed generation.

    Times are exact reals. The total rate divides by the elapsed time and is not part of this model. */
module StreamTiming {
  import opened Results
  import opened Folding

  /** One line of the response: something else, the end marker, or a chunk with its token count,
      absent when it is no integer, and the time it was read. */
  datatype Line = Other | Done | Chunk(error: bool, aborted: bool, tokens: Option<int>, now: real)

  /** A chunk that brought tokens: how many there were by then, and when. */
  datatype Arrival = Arrival(total: int, at: real)

  datatype Report = Report(ttft: real, gaps: seq<real>, coalesced: bool, firstChunk: int, tpot: Option<real>,
                           tokens: int)

  function Total(arrivals: seq<Arrival>): int {
    if arrivals == [] then 0 else arrivals[|arrivals| - 1].total
  }

  predicate Sound(line: Line) {
    line.Chunk? && !line.error && !line.aborted && line.tokens.Some?
  }

  /** The arrivals with one more line; nothing when the line refuses the stream. */
  function Arrive(arrivals: seq<Arrival>, line: Line): Option<seq<Arrival>> {
    if !line.Chunk? then Some(arrivals)
    else if !Sound(line) || line.tokens.value < Total(arrivals) then None
    else if line.tokens.value > Total(arrivals) then Some(arrivals + [Arrival(line.tokens.value, line.now)])
    else Some(arrivals)
  }

  function Arrivals(lines: seq<Line>): Option<seq<Arrival>> {
    Fold(Arrive, [], lines)
  }

  /** The tokens each later arrival added, and the time from the arrival before it. */
  function Increment(arrivals: seq<Arrival>, i: nat): int
    requires 0 < i < |arrivals|
  {
    arrivals[i].total - arrivals[i - 1].total
  }

  function Wait(arrivals: seq<Arrival>, i: nat): real
    requires 0 < i < |arrivals|
  {
    arrivals[i].at - arrivals[i - 1].at
  }

  predicate Rising(arrivals: seq<Arrival>) {
    && (arrivals != [] ==> arrivals[0].total > 0)
    && forall i :: 0 < i < |arrivals| ==> arrivals[i - 1].total < arrivals[i].total
  }

  function Quotient(x: real, n: int): real
    requires n != 0
  {
    x / (n as real)
  }

  function Gaps(arrivals: seq<Arrival>): (gaps: seq<real>)
    requires Rising(arrivals)
    ensures |gaps| == if arrivals == [] then 0 else |arrivals| - 1
  {
    if |arrivals| <= 1 then []
    else
      var front := arrivals[..|arrivals| - 1];
      Gaps(front) + [Quotient(Wait(arrivals, |arrivals| - 1), Increment(arrivals, |arrivals| - 1))]
  }

  predicate Coalesced(arrivals: seq<Arrival>) {
    && arrivals != []
    && (arrivals[0].total > 1 || exists i :: 0 < i < |arrivals| && Increment(arrivals, i) > 1)
  }

  function End(lines: seq<Line>): (end: nat)
    ensures end <= |lines|
    ensures forall i :: 0 <= i < end ==> lines[i] != Done
    ensures end < |lines| ==> lines[end] == Done
  {
    if lines == [] || lines[0] == Done then 0 else 1 + End(lines[1..])
  }

  /** The stream ends with its marker after sound chunks that reach exactly the budget. */
  predicate Accepted(lines: seq<Line>, budget: int) {
    && End(lines) < |lines|
    && Arrivals(lines[..End(lines)]).Some?
    && Arrivals(lines[..End(lines)]).value != []
    && Total(Arrivals(lines[..End(lines)]).value) == budget
  }

  function Observed(lines: seq<Line>): seq<Arrival> {
    var arrivals := Arrivals(lines[..End(lines)]);
    if arrivals.Some? then arrivals.value else []
  }

  function Summary(arrivals: seq<Arrival>, start: real): Report
    requires arrivals != [] && Rising(arrivals)
  {
    var first, last := arrivals[0], arrivals[|arrivals| - 1];
    Report(first.at - start, Gaps(arrivals), Coalesced(arrivals), first.total,
           if last.total > first.total then Some(Quotient(last.at - first.at, last.total - first.total)) else None,
           last.total)
  }

  lemma {:induction false} ArrivalsRise(lines: seq<Line>)
    ensures Arrivals(lines).Some? ==> Rising(Arrivals(lines).value)
  {
    if lines != [] {
      ArrivalsRise(lines[..|lines| - 1]);
    }
  }

  // ----- the loop

  lemma RisingSnoc(arrivals: seq<Arrival>, next: Arrival)
    requires Rising(arrivals) && next.total > Total(arrivals)
    ensures Rising(arrivals + [next])
  {
  }

  lemma {:induction false} GapsSnoc(arrivals: seq<Arrival>, next: Arrival)
    requires Rising(arrivals) && Rising(arrivals + [next]) && next.total > Total(arrivals)
    ensures Gaps(arrivals + [next]) ==
            if arrivals == [] then []
            else Gaps(arrivals) + [Quotient(next.at - arrivals[|arrivals| - 1].at, next.total - Total(arrivals))]
  {
    var all, n := arrivals + [next], |arrivals|;
    assert all[..n] == arrivals;
    if n > 0 {
      IncrementSnoc(arrivals, next, n);
      assert Wait(all, n) == next.at - arrivals[n - 1].at;
    }
  }

  lemma IncrementSnoc(arrivals: seq<Arrival>, next: Arrival, i: nat)
    requires 0 < i <= |arrivals|
    ensures Increment(arrivals + [next], i) ==
            if i < |arrivals| then Increment(arrivals, i) else next.total - Total(arrivals)
  {
  }

  lemma CoalescedSnoc(arrivals: seq<Arrival>, next: Arrival)
    ensures Coalesced(arrivals + [next]) <==> Coalesced(arrivals) || next.total - Total(arrivals) > 1
  {
    var all := arrivals + [next];
    if arrivals != [] {
      forall i | 0 < i <= |arrivals|
        ensures Increment(all, i) == if i < |arrivals| then Increment(arrivals, i) else next.total - Total(arrivals)
      {
        IncrementSnoc(arrivals, next, i);
      }
      assert Increment(all, |arrivals|) == next.total - Total(arrivals);
      if exists i :: 0 < i < |arrivals| && Increment(arrivals, i) > 1 {
        var i :| 0 < i < |arrivals| && Increment(arrivals, i) > 1;
        assert Increment(all, i) > 1;
      }
    }
  }

  datatype Tally = Tally(first: Option<real>, last: real, count: int, firstChunk: int, gaps: seq<real>, coalesced: bool)

  /** The loop's variables account for the arrivals so far. */
  predicate Tallied(tally: Tally, arrivals: seq<Arrival>) {
    && Rising(arrivals)
    && tally.count == Total(arrivals)
    && tally.gaps == Gaps(arrivals)
    && (tally.coalesced <==> Coalesced(arrivals))
    && (arrivals == [] <==> tally.first.None?)
    && (arrivals != [] ==>
          tally.first == Some(arrivals[0].at) && tally.firstChunk == arrivals[0].total
          && tally.last == arrivals[|arrivals| - 1].at)
  }

  /** One chunk that brings tokens. */
  method Take(tally: Tally, current: int, now: real, ghost arrivals: seq<Arrival>) returns (next: Tally)
    requires Tallied(tally, arrivals) && current > tally.count
    ensures Tallied(next, arrivals + [Arrival(current, now)])
  {
    RisingSnoc(arrivals, Arrival(current, now));
    GapsSnoc(arrivals, Arrival(current, now));
    CoalescedSnoc(arrivals, Arrival(current, now));
    if tally.first.None? {
      next := Tally(Some(now), now, current, current, tally.gaps, tally.coalesced || current > 1);
    } else {
      next := Tally(tally.first, now, current, tally.firstChunk,
                    tally.gaps + [Quotient(now - tally.last, current - tally.count)],
                    tally.coalesced || current - tally.count > 1);
    }
  }

  /** One line before the end marker: an error chunk, an aborted one, or one that takes tokens back refuses
      the stream. */
  method Absorb(tally: Tally, line: Line, ghost arrivals: seq<Arrival>) returns (next: Option<Tally>)
    requires Tallied(tally, arrivals)
    ensures next.Some? <==> Arrive(arrivals, line).Some?
    ensures next.Some? ==> Tallied(next.value, Arrive(arrivals, line).value)
  {
    hide Rising, Gaps, Coalesced;
    if !line.Chunk? { return Some(tally); }
    if line.error || line.aborted || line.tokens.None? || line.tokens.value < tally.count { return None; }
    if line.tokens.value <= tally.count { return Some(tally); }
    var more := Take(tally, line.tokens.value, line.now, arrivals);
    next := Some(more);
  }

  method Stream(lines: seq<Line>, budget: int, start: real) returns (report: Option<Report>)
    ensures report.Some? <==> Accepted(lines, budget)
    ensures report.Some? ==> Rising(Observed(lines)) && report.value == Summary(Observed(lines), start)
  {
    hide Arrive;
    var tally, i, done := Tally(None, 0.0, 0, 0, [], false), 0, false;
    ghost var arrivals: seq<Arrival> := [];
    while i < |lines| && !done
      invariant 0 <= i <= End(lines)
      invariant done <==> i == End(lines) < |lines| && done
      invariant Arrivals(lines[..i]) == Some(arrivals) && Tallied(tally, arrivals)
      decreases |lines| - i, !done
    {
      if lines[i] == Done {
        done := true;
      } else {
        assert lines[..i + 1] == lines[..i] + [lines[i]];
        FoldSnoc(Arrive, [], lines[..i], lines[i]);
        var next := Absorb(tally, lines[i], arrivals);
        if next.None? {
          RefusedHere(lines, i);
          return None;
        }
        tally, arrivals, i := next.value, Arrive(arrivals, lines[i]).value, i + 1;
      }
    }
    if !done || tally.first.None? || tally.count != budget { return None; }
    var tpot := if tally.count > tally.firstChunk
                then Some(Quotient(tally.last - tally.first.value, tally.count - tally.firstChunk)) else None;
    report := Some(Report(tally.first.value - start, tally.gaps, tally.coalesced, tally.firstChunk, tpot, tally.count));
  }

  lemma RefusedHere(lines: seq<Line>, i: nat)
    requires i < End(lines) && Arrivals(lines[..i + 1]).None?
    ensures Arrivals(lines[..End(lines)]).None?
  {
    var end := End(lines);
    assert lines[..end] == lines[..i + 1] + lines[i + 1..end];
    RefusalStands(Arrive, [], lines[..i + 1], lines[i + 1..end]);
  }

  // ----- what the numbers add up to

  function Increments(arrivals: seq<Arrival>): int {
    if |arrivals| <= 1 then 0
    else Increments(arrivals[..|arrivals| - 1]) + Increment(arrivals, |arrivals| - 1)
  }

  function Weighted(gap: real, increment: int): real { gap * (increment as real) }

  /** The gaps, each weighted by the tokens that arrived at its end. */
  function WeightedGaps(arrivals: seq<Arrival>): real
    requires Rising(arrivals)
  {
    if |arrivals| <= 1 then 0.0
    else
      var last := |arrivals| - 1;
      WeightedGaps(arrivals[..last]) + Weighted(Gaps(arrivals)[last - 1], Increment(arrivals, last))
  }

  lemma QuotientBack(x: real, n: int)
    requires n > 0
    ensures Weighted(Quotient(x, n), n) == x
  {
  }

  /** First chunk and later increments make up every token; weighted gaps make up the whole time. */
  lemma {:induction false} Conserved(arrivals: seq<Arrival>)
    requires arrivals != [] && Rising(arrivals)
    ensures arrivals[0].total + Increments(arrivals) == Total(arrivals)
    ensures WeightedGaps(arrivals) == arrivals[|arrivals| - 1].at - arrivals[0].at
  {
    if |arrivals| > 1 {
      var front := arrivals[..|arrivals| - 1];
      Conserved(front);
      QuotientBack(Wait(arrivals, |arrivals| - 1), Increment(arrivals, |arrivals| - 1));
    }
  }

  predicate Between(gaps: seq<real>, low: real, high: real) {
    forall i :: 0 <= i < |gaps| ==> low <= gaps[i] <= high
  }

  lemma WeightedBounds(gap: real, low: real, high: real, n: int)
    requires low <= gap <= high && n >= 0
    ensures Weighted(low, n) <= Weighted(gap, n) <= Weighted(high, n)
  {
  }

  lemma WeightedAdds(x: real, m: int, n: int)
    ensures Weighted(x, m + n) == Weighted(x, m) + Weighted(x, n)
  {
  }

  lemma {:induction false} WeightedBetween(arrivals: seq<Arrival>, low: real, high: real)
    requires Rising(arrivals) && Between(Gaps(arrivals), low, high)
    ensures Increments(arrivals) >= 0
    ensures Weighted(low, Increments(arrivals)) <= WeightedGaps(arrivals) <= Weighted(high, Increments(arrivals))
  {
    if |arrivals| > 1 {
      var last, front := |arrivals| - 1, arrivals[..|arrivals| - 1];
      assert Gaps(arrivals)[..last - 1] == Gaps(front);
      forall i | 0 <= i < |Gaps(front)| ensures low <= Gaps(front)[i] <= high { assert Gaps(arrivals)[i] == Gaps(front)[i]; }
      WeightedBetween(front, low, high);
      WeightedBounds(Gaps(arrivals)[last - 1], low, high, Increment(arrivals, last));
      WeightedAdds(low, Increments(front), Increment(arrivals, last));
      WeightedAdds(high, Increments(front), Increment(arrivals, last));
    }
  }

  lemma QuotientBounds(x: real, n: int, low: real, high: real)
    requires n > 0 && Weighted(low, n) <= x <= Weighted(high, n)
    ensures low <= Quotient(x, n) <= high
  {
    QuotientBack(x, n);
    Cancel(low, Quotient(x, n), n);
    Cancel(Quotient(x, n), high, n);
  }

  lemma Cancel(a: real, b: real, n: int)
    requires n > 0 && Weighted(a, n) <= Weighted(b, n)
    ensures a <= b
  {
  }

  /** In every accepted stream the first chunk and the later increments make up the budget, the
      gaps weighted by their increments make up the time from first to last arrival, and the
      estimate per token is their weighted mean: between any bounds the gaps keep, and there is one
      exactly when tokens arrived after the first chunk. */
  lemma ReportAccounts(lines: seq<Line>, budget: int, start: real, low: real, high: real)
    requires Accepted(lines, budget)
    ensures Observed(lines) != [] && Rising(Observed(lines))
    ensures var arrivals := Observed(lines); var report := Summary(arrivals, start);
            && report.tokens == budget == report.firstChunk + Increments(arrivals)
            && report.ttft == arrivals[0].at - start
            && WeightedGaps(arrivals) == arrivals[|arrivals| - 1].at - arrivals[0].at
            && (report.tpot.Some? <==> report.gaps != [])
            && (report.tpot.Some? ==> Weighted(report.tpot.value, Increments(arrivals)) == WeightedGaps(arrivals))
            && (report.tpot.Some? && Between(report.gaps, low, high) ==> low <= report.tpot.value <= high)
  {
    var arrivals := Observed(lines);
    ArrivalsRise(lines[..End(lines)]);
    Conserved(arrivals);
    LaterTokens(arrivals);
    var n := Increments(arrivals);
    if n > 0 {
      QuotientBack(WeightedGaps(arrivals), n);
      if Between(Gaps(arrivals), low, high) {
        WeightedBetween(arrivals, low, high);
        QuotientBounds(WeightedGaps(arrivals), n, low, high);
      }
    }
  }

  /** Tokens arrive later exactly when some gap was recorded. */
  lemma {:induction false} LaterTokens(arrivals: seq<Arrival>)
    requires arrivals != [] && Rising(arrivals)
    ensures Increments(arrivals) >= 0 && (Increments(arrivals) > 0 <==> Gaps(arrivals) != [])
  {
    if |arrivals| > 1 { LaterTokens(arrivals[..|arrivals| - 1]); }
  }
}
