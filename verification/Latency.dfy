/** The balanced C1/C2 latency comparator: validated series, per-case axes, score and verdict.

    Times are exact reals. The geometric means are kept as a power and a root, so that no
    exponential or logarithm is needed to compare the score with the required gain. */
module Latency {
  import opened Results
  import opened Stats

  datatype Policy = Policy(minimumSamples: int, noiseFloor: real, maximumSpread: real, minimumGain: real,
                           maximumTokenDelta: real)

  predicate Percent(x: real) { 0.0 <= x <= 10.0 }

  predicate ValidPolicy(p: Policy) {
    && 3 <= p.minimumSamples <= 32
    && Percent(p.noiseFloor) && Percent(p.maximumSpread) && Percent(p.minimumGain) && Percent(p.maximumTokenDelta)
    && 0.0 < p.maximumSpread && p.minimumGain > 0.0 && p.noiseFloor <= p.maximumSpread
  }

  datatype Arm = Control | Mtp | NoArm {
    function Label(): string {
      match this
      case Control => "control"
      case Mtp => "mtp"
      case NoArm => ""
    }
  }

  datatype Sample = Sample(id: string, group: string, times: seq<real>, wall: real, warmup: bool, completed: int,
                           prompt: seq<int>, completion: seq<int>, reasoning: seq<int>, final: seq<int>,
                           responses: seq<string>, qualityPassed: bool)

  datatype Case = Case(id: string, concurrency: int, contract: string, samples: seq<Sample>)

  datatype Record = Record(schema: int, serving: bool, profiled: bool, complete: bool, qualityPassed: bool,
                           released: bool, selection: string, runtime: string, workload: string, candidate: string,
                           seal: string, quality: string, observation: string, arm: Arm, cases: seq<Case>)

  predicate Hex(s: string, n: nat) {
    |s| == n && forall i :: 0 <= i < n ==> '0' <= s[i] <= '9' || 'a' <= s[i] <= 'f'
  }

  predicate Counts(ns: seq<int>, n: int, least: int) {
    |ns| == n && forall i :: 0 <= i < |ns| ==> least <= ns[i] <= 1048576
  }

  predicate SampleOk(s: Sample, nonce: string, arm: Arm, concurrency: int) {
    && 0 < |s.id| <= 128 && 0 < |s.group| <= 80 && s.id == nonce + ":" + arm.Label() + ":" + s.group
    && |s.times| == concurrency && Positive(s.times) && s.wall > 0.0
    && (forall i :: 0 <= i < |s.times| ==> s.times[i] <= s.wall + 0.001)
    && !s.warmup && s.completed == concurrency
    && Counts(s.prompt, concurrency, 1) && Counts(s.completion, concurrency, 1)
    && Counts(s.reasoning, concurrency, 0) && Counts(s.final, concurrency, 1)
    && (forall i :: 0 <= i < concurrency ==> s.reasoning[i] + s.final[i] <= s.completion[i])
    && |s.responses| == concurrency && (forall i :: 0 <= i < |s.responses| ==> Hex(s.responses[i], 64))
    && s.qualityPassed
  }

  /** A sample is well formed and repeats the prompt counts of the first one. */
  predicate SampleFits(c: Case, k: int, nonce: string, arm: Arm)
    requires 0 <= k < |c.samples|
  {
    SampleOk(c.samples[k], nonce, arm, c.concurrency) && c.samples[k].prompt == c.samples[0].prompt
  }

  predicate CaseHeader(c: Case, policy: Policy) {
    && 0 < |c.id| <= 128 && (c.concurrency == 1 || c.concurrency == 2) && Hex(c.contract, 64)
    && policy.minimumSamples <= |c.samples| <= 32
  }

  predicate SamplesFit(c: Case, n: int, nonce: string, arm: Arm)
    requires 0 <= n <= |c.samples|
  {
    forall k :: 0 <= k < n ==> SampleFits(c, k, nonce, arm)
  }

  predicate CaseOk(c: Case, nonce: string, arm: Arm, policy: Policy) {
    CaseHeader(c, policy) && SamplesFit(c, |c.samples|, nonce, arm)
  }

  predicate DistinctCases(cases: seq<Case>) {
    forall i, j :: 0 <= i < j < |cases| ==> cases[i].id != cases[j].id
  }

  /** The sample identities of a list of cases, in order. */
  function SampleIds(cases: seq<Case>): seq<string> {
    if cases == [] then []
    else SampleIds(cases[..|cases| - 1]) + IdsOf(cases[|cases| - 1].samples)
  }

  function IdsOf(samples: seq<Sample>): (ids: seq<string>)
    ensures |ids| == |samples| && forall i :: 0 <= i < |ids| ==> ids[i] == samples[i].id
  {
    if samples == [] then [] else IdsOf(samples[..|samples| - 1]) + [samples[|samples| - 1].id]
  }

  predicate Distinct(s: seq<string>) {
    forall i, j :: 0 <= i < j < |s| ==> s[i] != s[j]
  }

  predicate Header(r: Record) {
    && r.schema == 1 && r.serving && !r.profiled && r.complete && r.qualityPassed && r.released
    && Hex(r.selection, 64) && Hex(r.runtime, 64) && Hex(r.workload, 64) && Hex(r.candidate, 64)
    && Hex(r.seal, 64) && Hex(r.quality, 64) && Hex(r.observation, 16) && r.arm != NoArm
    && 2 <= |r.cases| <= 64
  }

  predicate BothConcurrencies(cases: seq<Case>) {
    && (exists i :: 0 <= i < |cases| && cases[i].concurrency == 1)
    && (exists i :: 0 <= i < |cases| && cases[i].concurrency == 2)
  }

  predicate CasesOk(r: Record, n: int, policy: Policy)
    requires 0 <= n <= |r.cases|
  {
    forall k :: 0 <= k < n ==> CaseOk(r.cases[k], r.observation, r.arm, policy)
  }

  /** What makes a measurement record scorable. */
  predicate ValidSeries(r: Record, policy: Policy) {
    && Header(r) && CasesOk(r, |r.cases|, policy)
    && DistinctCases(r.cases) && Distinct(SampleIds(r.cases))
    && BothConcurrencies(r.cases)
  }

  // ----- the rows a series is reduced to

  datatype Row = Row(id: string, concurrency: int, contract: string, e2e: seq<real>, walls: seq<real>,
                     prompts: seq<int>, completions: seq<seq<int>>)

  function Sum(s: seq<real>): real {
    if s == [] then 0.0 else Sum(s[..|s| - 1]) + s[|s| - 1]
  }

  function Mean(s: seq<real>): real {
    if s == [] then 0.0 else Sum(s) / (|s| as real)
  }

  /** A C2 sample is one simultaneous pair: its times are averaged, never flattened. */
  function Means(samples: seq<Sample>): (means: seq<real>)
    ensures |means| == |samples|
  {
    if samples == [] then [] else Means(samples[..|samples| - 1]) + [Mean(samples[|samples| - 1].times)]
  }

  function Walls(samples: seq<Sample>): (walls: seq<real>)
    ensures |walls| == |samples|
  {
    if samples == [] then [] else Walls(samples[..|samples| - 1]) + [samples[|samples| - 1].wall]
  }

  /** The generated token counts of one position of the group, over all samples. */
  function Column(samples: seq<Sample>, k: nat): (column: seq<int>)
    ensures |column| == |samples|
  {
    if samples == [] then [] else Column(samples[..|samples| - 1], k) + [At(samples[|samples| - 1].completion, k)]
  }

  function At(ns: seq<int>, k: nat): int {
    if k < |ns| then ns[k] else 0
  }

  /** What one more sample adds to everything a case collects. */
  lemma OneMore(samples: seq<Sample>, i: nat, seen: set<string>)
    requires i < |samples|
    ensures Means(samples[..i + 1]) == Means(samples[..i]) + [Mean(samples[i].times)]
    ensures Walls(samples[..i + 1]) == Walls(samples[..i]) + [samples[i].wall]
    ensures Column(samples[..i + 1], 0) == Column(samples[..i], 0) + [At(samples[i].completion, 0)]
    ensures Column(samples[..i + 1], 1) == Column(samples[..i], 1) + [At(samples[i].completion, 1)]
    ensures IdsOf(samples[..i + 1]) == IdsOf(samples[..i]) + [samples[i].id]
    ensures Fresh(IdsOf(samples[..i + 1]), seen) <==>
            Fresh(IdsOf(samples[..i]), seen) && samples[i].id !in seen + Members(IdsOf(samples[..i]))
    ensures Members(IdsOf(samples[..i + 1])) == Members(IdsOf(samples[..i])) + {samples[i].id}
  {
    assert samples[..i + 1][..i] == samples[..i];
    var ids := IdsOf(samples[..i + 1]);
    assert ids[..|ids| - 1] == IdsOf(samples[..i]);
  }

  function RowOf(c: Case): Row {
    Row(c.id, c.concurrency, c.contract, Means(c.samples), Walls(c.samples),
        if c.samples == [] then [] else c.samples[0].prompt,
        if c.concurrency == 1 then [Column(c.samples, 0)] else [Column(c.samples, 0), Column(c.samples, 1)])
  }

  function Rows(cases: seq<Case>): (rows: seq<Row>)
    ensures |rows| == |cases| && forall i :: 0 <= i < |rows| ==> rows[i] == RowOf(cases[i])
  {
    if cases == [] then [] else Rows(cases[..|cases| - 1]) + [RowOf(cases[|cases| - 1])]
  }

  /** No identity of `ids` was seen before, neither in `seen` nor earlier in the list. */
  predicate Fresh(ids: seq<string>, seen: set<string>) {
    ids == [] || (Fresh(ids[..|ids| - 1], seen) && ids[|ids| - 1] !in seen + Members(ids[..|ids| - 1]))
  }

  function Members(ids: seq<string>): (m: set<string>)
    ensures forall x :: x in m <==> x in ids
  {
    set x | x in ids
  }

  lemma {:induction false} FreshMeansDistinct(ids: seq<string>, seen: set<string>)
    ensures Fresh(ids, seen) <==> Distinct(ids) && forall i :: 0 <= i < |ids| ==> ids[i] !in seen
  {
    if ids != [] {
      var front, last := ids[..|ids| - 1], ids[|ids| - 1];
      FreshMeansDistinct(front, seen);
      if last in front {
        var k :| 0 <= k < |front| && front[k] == last;
        assert ids[k] == ids[|ids| - 1];
      }
    }
  }

  lemma {:induction false} FreshJoin(a: seq<string>, b: seq<string>, seen: set<string>)
    ensures Fresh(a + b, seen) <==> Fresh(a, seen) && Fresh(b, seen + Members(a))
    decreases |b|
  {
    if b == [] {
      assert a + b == a;
    } else {
      var front, last := b[..|b| - 1], b[|b| - 1];
      assert (a + b)[..|a + b| - 1] == a + front && (a + b)[|a + b| - 1] == last;
      FreshJoin(a, front, seen);
      assert seen + Members(a + front) == seen + Members(a) + Members(front);
    }
  }

  lemma OneMoreFits(c: Case, i: nat, nonce: string, arm: Arm)
    requires i < |c.samples| && SamplesFit(c, i, nonce, arm) && SampleFits(c, i, nonce, arm)
    ensures SamplesFit(c, i + 1, nonce, arm)
  {
    forall k | 0 <= k < i + 1
      ensures SampleFits(c, k, nonce, arm)
    {
      if k == i {
        assert SampleFits(c, i, nonce, arm);
      } else {
        assert SampleFits(c, k, nonce, arm);
      }
    }
  }

  method IsHex(s: string, n: nat) returns (ok: bool)
    ensures ok <==> Hex(s, n)
  {
    if |s| != n { return false; }
    var i := 0;
    while i < n
      invariant 0 <= i <= n
      invariant forall k :: 0 <= k < i ==> '0' <= s[k] <= '9' || 'a' <= s[k] <= 'f'
    {
      var code := s[i] as int;
      if !(48 <= code <= 57) && !(97 <= code <= 102) { return false; }
      i := i + 1;
    }
    ok := true;
  }

  method CheckPolicy(p: Policy) returns (ok: bool)
    ensures ok <==> ValidPolicy(p)
  {
    if p.minimumSamples < 3 || p.minimumSamples > 32 { return false; }
    var percents, i := [p.noiseFloor, p.maximumSpread, p.minimumGain, p.maximumTokenDelta], 0;
    while i < 4
      invariant 0 <= i <= 4 && forall k :: 0 <= k < i ==> Percent(percents[k])
    {
      if percents[i] < 0.0 || percents[i] > 10.0 {
        assert !Percent(percents[i]);
        return false;
      }
      i := i + 1;
    }
    assert Percent(percents[0]) && Percent(percents[1]) && Percent(percents[2]) && Percent(percents[3]);
    ok := p.maximumSpread > 0.0 && p.minimumGain > 0.0 && p.noiseFloor <= p.maximumSpread;
  }

  /** The counts of one kind: one a request, each in its bounds. */
  method CheckCounts(ns: seq<int>, n: int, least: int) returns (ok: bool)
    ensures ok <==> Counts(ns, n, least)
  {
    if |ns| != n { return false; }
    var i := 0;
    while i < |ns|
      invariant 0 <= i <= |ns| && forall k :: 0 <= k < i ==> least <= ns[k] <= 1048576
    {
      if ns[i] < least || ns[i] > 1048576 { return false; }
      i := i + 1;
    }
    ok := true;
  }

  /** Times are positive and fit the wall time. */
  method CheckTimes(s: Sample, n: int) returns (ok: bool)
    ensures ok <==> |s.times| == n && Positive(s.times) && s.wall > 0.0
                    && forall i :: 0 <= i < |s.times| ==> s.times[i] <= s.wall + 0.001
  {
    if |s.times| != n || s.wall <= 0.0 { return false; }
    var i := 0;
    while i < |s.times|
      invariant 0 <= i <= |s.times| && forall k :: 0 <= k < i ==> 0.0 < s.times[k] <= s.wall + 0.001
    {
      if s.times[i] <= 0.0 || s.times[i] > s.wall + 0.001 { return false; }
      i := i + 1;
    }
    ok := true;
  }

  /** Reasoning and final tokens fit the completions, and each response is a digest. */
  method CheckAnswers(s: Sample, n: int) returns (ok: bool)
    requires |s.completion| == n && |s.reasoning| == n && |s.final| == n
    ensures ok <==> && (forall i :: 0 <= i < n ==> s.reasoning[i] + s.final[i] <= s.completion[i])
                    && |s.responses| == n && (forall i :: 0 <= i < |s.responses| ==> Hex(s.responses[i], 64))
  {
    if |s.responses| != n { return false; }
    var i := 0;
    while i < n
      invariant 0 <= i <= n
      invariant forall k :: 0 <= k < i ==> s.reasoning[k] + s.final[k] <= s.completion[k] && Hex(s.responses[k], 64)
    {
      var digest := IsHex(s.responses[i], 64);
      if s.completion[i] < s.reasoning[i] + s.final[i] || !digest { return false; }
      i := i + 1;
    }
    ok := true;
  }

  method CheckSample(s: Sample, nonce: string, arm: Arm, concurrency: int) returns (ok: bool)
    ensures ok <==> SampleOk(s, nonce, arm, concurrency)
  {
    if s.id == "" || |s.id| > 128 || s.group == "" || |s.group| > 80 { return false; }
    if s.id != nonce + ":" + arm.Label() + ":" + s.group { return false; }
    ok := CheckTimes(s, concurrency);
    if !ok || s.warmup || s.completed != concurrency || !s.qualityPassed { return false; }
    ok := CheckCounts(s.prompt, concurrency, 1);
    if !ok { return; }
    ok := CheckCounts(s.completion, concurrency, 1);
    if !ok { return; }
    ok := CheckCounts(s.reasoning, concurrency, 0);
    if !ok { return; }
    ok := CheckCounts(s.final, concurrency, 1);
    if !ok { return; }
    ok := CheckAnswers(s, concurrency);
  }

  /** The samples of one case: each is checked, and its identity, times and counts are collected. */
  /** What the loop has gathered from the samples so far. */
  predicate Gathered(samples: seq<Sample>, seen: set<string>, ids: set<string>, values: seq<real>, walls: seq<real>,
                     first: seq<int>, second: seq<int>)
  {
    && Fresh(IdsOf(samples), seen) && ids == seen + Members(IdsOf(samples))
    && values == Means(samples) && walls == Walls(samples)
    && first == Column(samples, 0) && second == Column(samples, 1)
  }

  lemma NothingGathered(seen: set<string>)
    ensures Gathered([], seen, seen, [], [], [], [])
  {
  }

  lemma GatheredNext(samples: seq<Sample>, i: nat, seen: set<string>, ids: set<string>, values: seq<real>, walls: seq<real>,
                     first: seq<int>, second: seq<int>)
    requires i < |samples| && Gathered(samples[..i], seen, ids, values, walls, first, second)
    ensures samples[i].id in ids ==> !Fresh(IdsOf(samples), seen)
    ensures samples[i].id !in ids ==>
      Gathered(samples[..i + 1], seen, ids + {samples[i].id}, values + [Mean(samples[i].times)], walls + [samples[i].wall],
               first + [At(samples[i].completion, 0)], second + [At(samples[i].completion, 1)])
  {
    hide Means, Walls, Column, Fresh, IdsOf;
    OneMore(samples, i, seen);
    if samples[i].id in ids { StaleCase(samples, i, seen); }
  }

  method Collect(c: Case, nonce: string, arm: Arm, seen: set<string>)
    returns (ok: bool, ids: set<string>, values: seq<real>, walls: seq<real>, first: seq<int>, second: seq<int>)
    ensures ok <==> SamplesFit(c, |c.samples|, nonce, arm) && Fresh(IdsOf(c.samples), seen)
    ensures ok ==> ids == seen + Members(IdsOf(c.samples))
    ensures ok ==> values == Means(c.samples) && walls == Walls(c.samples)
    ensures ok ==> first == Column(c.samples, 0) && second == Column(c.samples, 1)
  {
    hide Means, Walls, Column, Fresh, IdsOf, Members;
    ids, values, walls, first, second := seen, [], [], [], [];
    var i := 0;
    NothingGathered(seen);
    assert c.samples[..0] == [];
    while i < |c.samples|
      invariant 0 <= i <= |c.samples|
      invariant SamplesFit(c, i, nonce, arm)
      invariant Gathered(c.samples[..i], seen, ids, values, walls, first, second)
    {
      var s := c.samples[i];
      var sound := CheckSample(s, nonce, arm, c.concurrency);
      if !sound || s.prompt != c.samples[0].prompt {
        assert !SampleFits(c, i, nonce, arm);
        return false, ids, values, walls, first, second;
      }
      GatheredNext(c.samples, i, seen, ids, values, walls, first, second);
      if s.id in ids {
        return false, ids, values, walls, first, second;
      }
      OneMoreFits(c, i, nonce, arm);
      ids, values, walls := ids + {s.id}, values + [Mean(s.times)], walls + [s.wall];
      first, second := first + [At(s.completion, 0)], second + [At(s.completion, 1)];
      i := i + 1;
    }
    assert c.samples[..i] == c.samples;
    ok := true;
  }

  /** One case of a series. */
  method CaseSeries(c: Case, nonce: string, arm: Arm, policy: Policy, seen: set<string>)
    returns (out: Result<(Row, set<string>)>)
    requires ValidPolicy(policy)
    ensures out.Ok? <==> CaseOk(c, nonce, arm, policy) && Fresh(IdsOf(c.samples), seen)
    ensures out.Ok? ==> out.value.0 == RowOf(c)
    ensures out.Ok? ==> out.value.1 == seen + Members(IdsOf(c.samples))
  {
    var digest := IsHex(c.contract, 64);
    if c.id == "" || |c.id| > 128 || c.concurrency !in {1, 2} || !digest { return Refused; }
    if |c.samples| < policy.minimumSamples || |c.samples| > 32 { return Refused; }
    var ok, ids, values, walls, first, second := Collect(c, nonce, arm, seen);
    if !ok { return Refused; }
    return Ok((Row(c.id, c.concurrency, c.contract, values, walls, c.samples[0].prompt,
                   if c.concurrency == 1 then [first] else [first, second]), ids));
  }

  lemma StaleCase(samples: seq<Sample>, i: nat, seen: set<string>)
    requires i < |samples| && samples[i].id in seen + Members(IdsOf(samples[..i]))
    ensures !Fresh(IdsOf(samples), seen)
  {
    FreshMeansDistinct(IdsOf(samples), seen);
    if samples[i].id !in seen {
      var k :| 0 <= k < i && IdsOf(samples[..i])[k] == samples[i].id;
      assert IdsOf(samples)[k] == IdsOf(samples)[i];
    } else {
      assert IdsOf(samples)[i] in seen;
    }
  }

  method CheckHeader(r: Record) returns (ok: bool)
    ensures ok <==> Header(r)
  {
    if r.schema != 1 || !r.serving || r.profiled || !r.complete || !r.qualityPassed || !r.released { return false; }
    var digests, i := [r.selection, r.runtime, r.workload, r.candidate, r.seal, r.quality], 0;
    while i < 6
      invariant 0 <= i <= 6 && forall k :: 0 <= k < i ==> Hex(digests[k], 64)
    {
      var digest := IsHex(digests[i], 64);
      if !digest {
        assert !Hex(digests[i], 64);
        return false;
      }
      i := i + 1;
    }
    assert forall k :: 0 <= k < 6 ==> Hex(digests[k], 64);
    assert Hex(digests[0], 64) && Hex(digests[1], 64) && Hex(digests[2], 64);
    assert Hex(digests[3], 64) && Hex(digests[4], 64) && Hex(digests[5], 64);
    var nonce := IsHex(r.observation, 16);
    ok := nonce && r.arm in {Control, Mtp} && |r.cases| >= 2 && |r.cases| <= 64;
  }

  /** The series of one record: the row of every case, and the identity of every sample. */
  method Series(r: Record, policy: Policy) returns (out: Result<(seq<Row>, set<string>)>)
    requires ValidPolicy(policy)
    ensures out.Ok? <==> ValidSeries(r, policy)
    ensures out.Ok? ==> out.value.0 == Rows(r.cases) && out.value.1 == Members(SampleIds(r.cases))
  {
    var sound := CheckHeader(r);
    if !sound { return Refused; }
    var rows: seq<Row>, ids: set<string>, i := [], {}, 0;
    while i < |r.cases|
      invariant 0 <= i <= |r.cases|
      invariant CasesOk(r, i, policy)
      invariant DistinctCases(r.cases[..i]) && Fresh(SampleIds(r.cases[..i]), {})
      invariant ids == Members(SampleIds(r.cases[..i]))
      invariant rows == Rows(r.cases[..i])
    {
      if exists k :: 0 <= k < i && r.cases[k].id == r.cases[i].id { return Refused; }
      var row := CaseSeries(r.cases[i], r.observation, r.arm, policy, ids);
      OneMoreOk(r, i, policy);
      OneMoreRow(r.cases, i);
      OneMoreCase(r.cases, i);
      if row.Refused? { return Refused; }
      rows, ids, i := rows + [row.value.0], row.value.1, i + 1;
    }
    assert r.cases[..i] == r.cases;
    FreshMeansDistinct(SampleIds(r.cases), {});
    if !BothConcurrencies(r.cases) { return Refused; }
    return Ok((rows, ids));
  }

  lemma OneMoreOk(r: Record, i: nat, policy: Policy)
    requires i < |r.cases| && CasesOk(r, i, policy)
    ensures CasesOk(r, i + 1, policy) <==> CaseOk(r.cases[i], r.observation, r.arm, policy)
    ensures !CaseOk(r.cases[i], r.observation, r.arm, policy) ==> !CasesOk(r, |r.cases|, policy)
  {
    forall k | 0 <= k < i + 1 && CaseOk(r.cases[i], r.observation, r.arm, policy)
      ensures CaseOk(r.cases[k], r.observation, r.arm, policy)
    {
      if k < i {
        assert CaseOk(r.cases[k], r.observation, r.arm, policy);
      }
    }
  }

  /** What one more case adds to the rows of a series. */
  lemma OneMoreRow(cases: seq<Case>, i: nat)
    requires i < |cases| && DistinctCases(cases[..i])
    requires forall k :: 0 <= k < i ==> cases[k].id != cases[i].id
    ensures Rows(cases[..i + 1]) == Rows(cases[..i]) + [RowOf(cases[i])]
    ensures DistinctCases(cases[..i + 1])
  {
    assert cases[..i + 1][..i] == cases[..i];
  }

  /** What one more case adds to the identities of a series. */
  lemma OneMoreCase(cases: seq<Case>, i: nat)
    requires i < |cases| && Fresh(SampleIds(cases[..i]), {})
    ensures Members(SampleIds(cases[..i + 1])) == Members(SampleIds(cases[..i])) + Members(IdsOf(cases[i].samples))
    ensures Fresh(SampleIds(cases[..i + 1]), {}) <==> Fresh(IdsOf(cases[i].samples), Members(SampleIds(cases[..i])))
    ensures !Fresh(IdsOf(cases[i].samples), Members(SampleIds(cases[..i]))) ==> !Distinct(SampleIds(cases))
  {
    var before, ids := SampleIds(cases[..i]), IdsOf(cases[i].samples);
    assert SampleIds(cases[..i + 1]) == before + ids by {
      assert cases[..i + 1][..i] == cases[..i];
    }
    JoinAfter(before, ids);
    StaleSeries(cases, i);
  }

  lemma JoinAfter(a: seq<string>, b: seq<string>)
    requires Fresh(a, {})
    ensures Members(a + b) == Members(a) + Members(b)
    ensures Fresh(a + b, {}) <==> Fresh(b, Members(a))
  {
    FreshJoin(a, b, {});
    assert {} + Members(a) == Members(a);
  }

  lemma {:induction false} StaleSeries(cases: seq<Case>, i: nat)
    requires i < |cases|
    ensures !Fresh(SampleIds(cases[..i]) + IdsOf(cases[i].samples), {}) ==> !Distinct(SampleIds(cases))
    decreases |cases|
  {
    FreshMeansDistinct(SampleIds(cases), {});
    if i == |cases| - 1 {
      assert cases[..i] == cases[..|cases| - 1];
    } else {
      var front := cases[..|cases| - 1];
      assert front[..i] == cases[..i];
      StaleSeries(front, i);
      FreshMeansDistinct(SampleIds(front), {});
      FreshJoin(SampleIds(front), IdsOf(cases[|cases| - 1].samples), {});
    }
  }
}
