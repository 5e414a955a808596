/** From the authenticated HTTP and quality evidence of one arm to a latency series. */
module Arms {
  import opened Results
  import opened Bags
  import opened Folding
  import opened Menu
  import opened MenuSchedule
  import Latency

  // ----- evidence of one arm

  /** One HTTP row; `bound` holds the identities it shares with its native answer. */
  datatype HttpRow = HttpRow(bound: bool, elapsed: real, prompt: int)

  /** A native answer: its token counts, the digest of its response, and of the request it answers. */
  datatype Answer = Answer(output: int, reasoning: int, final: int, response: string, body: string)

  datatype Executed = Executed(id: string, warmup: bool, concurrency: nat, ordinals: seq<nat>, times: seq<real>,
                               tokens: int, makespan: real)

  datatype Arm = Arm(rows: seq<HttpRow>, answers: seq<Answer>, groups: seq<Executed>)

  datatype CasePlan = CasePlan(name: string, concurrency: nat, contract: string, samples: seq<Sample>)

  /** The frozen workload; its cases are in name order. */
  datatype Workload = Workload(requests: nat, samples: nat, diagnostic: bool, groups: seq<Group>, cases: seq<CasePlan>)

  const WARMUPS := 3
  const SLACK := 0.000001

  predicate InRange(ordinals: seq<nat>, n: nat) {
    forall i :: 0 <= i < |ordinals| ==> ordinals[i] < n
  }

  /** The generated tokens of these requests. */
  function Outputs(answers: seq<Answer>, ordinals: seq<nat>): int {
    if ordinals == [] then 0
    else
      var last := ordinals[|ordinals| - 1];
      Outputs(answers, ordinals[..|ordinals| - 1]) + if last < |answers| then answers[last].output else 0
  }

  function Elapsed(rows: seq<HttpRow>, ordinals: seq<nat>): (times: seq<real>)
    ensures |times| == |ordinals|
  {
    seq(|ordinals|, i requires 0 <= i < |ordinals| =>
      if ordinals[i] < |rows| then rows[ordinals[i]].elapsed else 0.0)
  }

  /** The group was executed as planned, and accounts for the times and tokens of its requests. */
  predicate Follows(g: Executed, plan: Group, arm: Arm) {
    && g.id == plan.id && g.warmup == plan.warmup && g.ordinals == plan.ordinals && g.concurrency == plan.concurrency
    && g.times == Elapsed(arm.rows, g.ordinals)
    && g.tokens == Outputs(arm.answers, g.ordinals)
    && g.makespan > 0.0 && forall i :: 0 <= i < |g.times| ==> g.times[i] <= g.makespan + SLACK
  }

  predicate GroupOk(g: Executed, plan: Group, arm: Arm) {
    Follows(g, plan, arm) && plan.concurrency == |plan.ordinals| && InRange(plan.ordinals, |arm.rows|)
  }

  predicate RowsOk(arm: Arm, n: nat) {
    && |arm.rows| == n && |arm.answers| == n
    && forall i :: 0 <= i < n ==> arm.rows[i].bound && arm.rows[i].elapsed > 0.0
  }

  /** The rows of one arm join their answers, and its groups are the frozen schedule. */
  predicate ArmOk(arm: Arm, workload: Workload) {
    && RowsOk(arm, workload.requests)
    && |arm.groups| == |workload.groups|
    && Joined(arm, workload.groups, |workload.groups|)
    && DistinctIds(workload.groups)
    && Flat(workload.groups) == Count(0, workload.requests)
  }

  function Named(groups: seq<Executed>): map<string, Executed> {
    if groups == [] then map[] else Named(groups[..|groups| - 1])[groups[|groups| - 1].id := groups[|groups| - 1]]
  }

  function Ids(groups: seq<Group>): set<string> {
    set i | 0 <= i < |groups| :: groups[i].id
  }

  lemma OneMoreGroup(groups: seq<Group>, i: nat)
    requires i < |groups|
    ensures groups[..i + 1][..i] == groups[..i]
    ensures Ids(groups[..i + 1]) == Ids(groups[..i]) + {groups[i].id}
    ensures DistinctIds(groups[..i + 1]) <==> DistinctIds(groups[..i]) && groups[i].id !in Ids(groups[..i])
    ensures groups[i].id in Ids(groups[..i]) ==> !DistinctIds(groups)
  {
    var front, next := groups[..i], groups[..i + 1];
    assert next == front + [groups[i]];
    forall id ensures id in Ids(next) <==> id in Ids(front) || id == groups[i].id {
      if id in Ids(front) {
        var k :| 0 <= k < |front| && front[k].id == id;
        assert next[k].id == id;
      }
      assert next[i].id == groups[i].id;
    }
    if groups[i].id in Ids(front) {
      var k :| 0 <= k < |front| && front[k].id == groups[i].id;
      assert next[k].id == next[i].id && groups[k].id == groups[i].id;
    }
    if DistinctIds(next) {
      forall k, l | 0 <= k < l < |front| ensures front[k].id != front[l].id {
        assert next[k] == front[k] && next[l] == front[l];
      }
    }
  }

  predicate Joined(arm: Arm, groups: seq<Group>, n: nat)
    requires |arm.groups| == |groups| && n <= |groups|
  {
    forall i {:trigger GroupOk(arm.groups[i], groups[i], arm)} :: 0 <= i < n ==> GroupOk(arm.groups[i], groups[i], arm)
  }

  lemma JoinNext(arm: Arm, groups: seq<Group>, i: nat)
    requires |arm.groups| == |groups| && i < |groups|
    ensures Joined(arm, groups, i + 1) <==> Joined(arm, groups, i) && GroupOk(arm.groups[i], groups[i], arm)
    ensures Joined(arm, groups, |groups|) ==> GroupOk(arm.groups[i], groups[i], arm)
    ensures Named(arm.groups[..i + 1]) == Named(arm.groups[..i])[arm.groups[i].id := arm.groups[i]]
    ensures Flat(groups[..i + 1]) == Flat(groups[..i]) + groups[i].ordinals
  {
    assert arm.groups[..i + 1][..i] == arm.groups[..i] && groups[..i + 1][..i] == groups[..i];
  }

  /** One executed group against its plan: the same group, and accounts that add up. */
  method CheckGroup(g: Executed, plan: Group, arm: Arm) returns (ok: bool)
    ensures ok <==> GroupOk(g, plan, arm)
  {
    if g.id != plan.id || g.warmup != plan.warmup || g.ordinals != plan.ordinals || g.concurrency != plan.concurrency
       || |plan.ordinals| != plan.concurrency || g.makespan <= 0.0 {
      return false;
    }
    var times: seq<real>, total, i := [], 0, 0;
    while i < |plan.ordinals|
      invariant 0 <= i <= |plan.ordinals| && InRange(plan.ordinals[..i], |arm.rows|)
      invariant times == Elapsed(arm.rows, plan.ordinals[..i]) && total == Outputs(arm.answers, plan.ordinals[..i])
    {
      var o := plan.ordinals[i];
      if o >= |arm.rows| { return false; }
      assert plan.ordinals[..i + 1] == plan.ordinals[..i] + [o] && plan.ordinals[..i + 1][..i] == plan.ordinals[..i];
      times := times + [arm.rows[o].elapsed];
      if o < |arm.answers| { total := total + arm.answers[o].output; }
      i := i + 1;
    }
    assert plan.ordinals[..i] == plan.ordinals;
    if g.times != times || g.tokens != total { return false; }
    ok := CheckMakespan(g.times, g.makespan);
  }

  method CheckMakespan(times: seq<real>, makespan: real) returns (ok: bool)
    ensures ok <==> forall i :: 0 <= i < |times| ==> times[i] <= makespan + SLACK
  {
    var i := 0;
    while i < |times|
      invariant 0 <= i <= |times| && forall k :: 0 <= k < i ==> times[k] <= makespan + SLACK
    {
      if times[i] > makespan + 0.000001 { return false; }
      i := i + 1;
    }
    ok := true;
  }

  /** The HTTP rows of an arm: as many as planned, each bound to its answer, with a positive time. */
  method CheckRows(arm: Arm, n: nat) returns (ok: bool)
    ensures ok <==> RowsOk(arm, n)
  {
    if |arm.rows| != n || |arm.answers| != n { return false; }
    var i := 0;
    while i < n
      invariant 0 <= i <= n && forall k :: 0 <= k < i ==> arm.rows[k].bound && arm.rows[k].elapsed > 0.0
    {
      if !arm.rows[i].bound || arm.rows[i].elapsed <= 0.0 { return false; }
      i := i + 1;
    }
    ok := true;
  }

  method JoinGroups(arm: Arm, groups: seq<Group>)
    returns (found: Option<map<string, Executed>>, ordinals: seq<nat>)
    requires |arm.groups| == |groups|
    ensures found.Some? <==> Joined(arm, groups, |groups|) && DistinctIds(groups)
    ensures found.Some? ==> found.value == Named(arm.groups) && ordinals == Flat(groups)
  {
    var named: map<string, Executed>, i := map[], 0;
    ordinals := [];
    while i < |arm.groups|
      invariant 0 <= i <= |arm.groups|
      invariant Joined(arm, groups, i) && DistinctIds(groups[..i])
      invariant named == Named(arm.groups[..i]) && named.Keys == Ids(groups[..i])
      invariant ordinals == Flat(groups[..i])
    {
      OneMoreGroup(groups, i);
      JoinNext(arm, groups, i);
      var sound := CheckGroup(arm.groups[i], groups[i], arm);
      if !sound || arm.groups[i].id in named { return None, ordinals; }
      named, ordinals := named[arm.groups[i].id := arm.groups[i]], ordinals + groups[i].ordinals;
      i := i + 1;
    }
    assert arm.groups[..i] == arm.groups && groups[..i] == groups;
    found := Some(named);
  }

  method JoinArm(arm: Arm, workload: Workload) returns (groups: Option<map<string, Executed>>)
    ensures groups.Some? <==> ArmOk(arm, workload)
    ensures groups.Some? ==> groups.value == Named(arm.groups)
  {
    var sound := CheckRows(arm, workload.requests);
    if !sound || |arm.groups| != |workload.groups| { return None; }
    var ordinals;
    groups, ordinals := JoinGroups(arm, workload.groups);
    if groups.Some? && ordinals != Count(0, workload.requests) { return None; }
  }

  // ----- the series of one arm

  datatype Identity = Identity(selection: string, runtime: string, workload: string, candidate: string, seal: string,
                               quality: string, observation: string, arm: Latency.Arm)

  /** What the loops over cases and samples carry. */
  datatype Carried = Carried(samples: seq<Latency.Sample>, cases: seq<Latency.Case>, measured: seq<nat>, seconds: real,
                             tokens: int)

  const Fresh := Carried([], [], [], 0.0, 0)

  function Picked(ordinals: seq<nat>, f: nat -> int): (values: seq<int>)
    ensures |values| == |ordinals|
  {
    seq(|ordinals|, i requires 0 <= i < |ordinals| => f(ordinals[i]))
  }

  function Milliseconds(times: seq<real>): (ms: seq<real>)
    ensures |ms| == |times|
  {
    seq(|times|, i requires 0 <= i < |times| => 1000.0 * times[i])
  }

  function PromptAt(arm: Arm): nat -> int { (i: nat) => if i < |arm.rows| then arm.rows[i].prompt else 0 }
  function OutputAt(arm: Arm): nat -> int { (i: nat) => if i < |arm.answers| then arm.answers[i].output else 0 }
  function ReasoningAt(arm: Arm): nat -> int { (i: nat) => if i < |arm.answers| then arm.answers[i].reasoning else 0 }
  function FinalAt(arm: Arm): nat -> int { (i: nat) => if i < |arm.answers| then arm.answers[i].final else 0 }

  function Responses(arm: Arm, ordinals: seq<nat>): seq<string>
    requires InRange(ordinals, |arm.answers|)
  {
    seq(|ordinals|, i requires 0 <= i < |ordinals| => arm.answers[ordinals[i]].response)
  }

  function SampleOf(arm: Arm, g: Executed, plan: CasePlan, id: Identity): Latency.Sample
    requires InRange(g.ordinals, |arm.rows|) && InRange(g.ordinals, |arm.answers|)
  {
    Latency.Sample(id.observation + ":" + id.arm.Label() + ":" + g.id, g.id, Milliseconds(Elapsed(arm.rows, g.ordinals)),
                   1000.0 * g.makespan, false, plan.concurrency, Picked(g.ordinals, PromptAt(arm)),
                   Picked(g.ordinals, OutputAt(arm)), Picked(g.ordinals, ReasoningAt(arm)),
                   Picked(g.ordinals, FinalAt(arm)), Responses(arm, g.ordinals), true)
  }

  /** A sample names a timed group of this case. */
  predicate Identifies(groups: map<string, Executed>, plan: CasePlan, frozen: Sample, n: nat) {
    && frozen.group in groups && groups[frozen.group].id == frozen.group
    && var g := groups[frozen.group];
       && !g.warmup && g.ordinals == frozen.ordinals && g.concurrency == plan.concurrency
       && InRange(g.ordinals, n)
  }

  function AddSample(arm: Arm, groups: map<string, Executed>, plan: CasePlan, id: Identity)
    : (Carried, Sample) -> Option<Carried>
    requires |arm.answers| == |arm.rows|
  {
    (c: Carried, frozen: Sample) =>
      if |arm.answers| != |arm.rows| || !Identifies(groups, plan, frozen, |arm.rows|) then None
      else
        var g := groups[frozen.group];
        Some(c.(samples := c.samples + [SampleOf(arm, g, plan, id)], measured := c.measured + frozen.ordinals,
                seconds := c.seconds + g.makespan, tokens := c.tokens + g.tokens))
  }

  function AddCase(arm: Arm, groups: map<string, Executed>, id: Identity): (Carried, CasePlan) -> Option<Carried>
    requires |arm.answers| == |arm.rows|
  {
    (c: Carried, plan: CasePlan) =>
      if |arm.answers| != |arm.rows| then None
      else
        match Fold(AddSample(arm, groups, plan, id), c.(samples := []), plan.samples)
        case None => None
        case Some(d) =>
          Some(d.(cases := c.cases + [Latency.Case(plan.name, plan.concurrency, plan.contract, d.samples)]))
  }

  function Series(carried: Carried, id: Identity): Latency.Record {
    Latency.Record(1, true, false, true, true, true, id.selection, id.runtime, id.workload, id.candidate, id.seal,
                   id.quality, id.observation, id.arm, carried.cases)
  }

  datatype Product = Product(series: Latency.Record, tokens: int, seconds: real)

  function Projected(arm: Arm, workload: Workload, id: Identity): Option<Carried>
    requires |arm.answers| == |arm.rows|
  {
    Fold(AddCase(arm, Named(arm.groups), id), Fresh, workload.cases)
  }

  /** When one arm becomes a series: its schedule joins, every sample names its group, every request
      after the warmups is scored once, and the series is one the comparator accepts. */
  predicate ArmScored(arm: Arm, workload: Workload, id: Identity, policy: Latency.Policy) {
    && workload.requests >= WARMUPS && ArmOk(arm, workload)
    && var c := Projected(arm, workload, id);
       c.Some? && Scorable(c.value, workload.requests, id, policy)
  }

  /** Every request after the warmups was scored once, and the series is one the comparator accepts. */
  predicate Scorable(c: Carried, requests: nat, id: Identity, policy: Latency.Policy) {
    && requests >= WARMUPS && multiset(c.measured) == multiset(Count(WARMUPS, requests - WARMUPS))
    && Latency.ValidSeries(Series(c, id), policy)
  }

  function ProductOf(arm: Arm, workload: Workload, id: Identity, policy: Latency.Policy): Product
    requires ArmScored(arm, workload, id, policy)
  {
    var c := Projected(arm, workload, id).value;
    Product(Series(c, id), c.tokens, c.seconds)
  }

  /** A frozen sample names a timed group of its case, over requests that exist. */
  method CheckSample(groups: map<string, Executed>, plan: CasePlan, frozen: Sample, n: nat) returns (ok: bool)
    ensures ok <==> Identifies(groups, plan, frozen, n)
  {
    if frozen.group !in groups { return false; }
    var g := groups[frozen.group];
    if g.id != frozen.group || g.warmup || g.ordinals != frozen.ordinals || g.concurrency != plan.concurrency {
      return false;
    }
    var i := 0;
    while i < |g.ordinals|
      invariant 0 <= i <= |g.ordinals| && forall k :: 0 <= k < i ==> g.ordinals[k] < n
    {
      if g.ordinals[i] >= n { return false; }
      i := i + 1;
    }
    ok := true;
  }

  /** The sample of one group: milliseconds for seconds, and the counts and responses request by request. */
  method MakeSample(arm: Arm, g: Executed, plan: CasePlan, id: Identity) returns (sample: Latency.Sample)
    requires |arm.answers| == |arm.rows| && InRange(g.ordinals, |arm.rows|)
    ensures sample == SampleOf(arm, g, plan, id)
  {
    var times: seq<real>, prompt: seq<int>, output: seq<int> := [], [], [];
    var reasoning: seq<int>, final: seq<int>, responses: seq<string> := [], [], [];
    var i := 0;
    while i < |g.ordinals|
      invariant 0 <= i <= |g.ordinals| && |times| == |prompt| == |output| == |reasoning| == |final| == |responses| == i
      invariant forall k :: 0 <= k < i ==> times[k] == 1000.0 * Elapsed(arm.rows, g.ordinals)[k]
      invariant forall k :: 0 <= k < i ==> prompt[k] == PromptAt(arm)(g.ordinals[k])
      invariant forall k :: 0 <= k < i ==> output[k] == OutputAt(arm)(g.ordinals[k])
      invariant forall k :: 0 <= k < i ==> reasoning[k] == ReasoningAt(arm)(g.ordinals[k])
      invariant forall k :: 0 <= k < i ==> final[k] == FinalAt(arm)(g.ordinals[k])
      invariant forall k :: 0 <= k < i ==> responses[k] == arm.answers[g.ordinals[k]].response
    {
      var row, answer := arm.rows[g.ordinals[i]], arm.answers[g.ordinals[i]];
      times, prompt, output := times + [1000.0 * row.elapsed], prompt + [row.prompt], output + [answer.output];
      reasoning, final, responses := reasoning + [answer.reasoning], final + [answer.final], responses + [answer.response];
      i := i + 1;
    }
    sample := Latency.Sample(id.observation + ":" + id.arm.Label() + ":" + g.id, g.id, times, g.makespan * 1000.0, false,
                             plan.concurrency, prompt, output, reasoning, final, responses, true);
  }

  method ProjectCase(arm: Arm, groups: map<string, Executed>, id: Identity, c: Carried, plan: CasePlan)
    returns (next: Option<Carried>)
    requires |arm.answers| == |arm.rows|
    ensures next == AddCase(arm, groups, id)(c, plan)
  {
    var step := AddSample(arm, groups, plan, id);
    var d, i := c.(samples := []), 0;
    while i < |plan.samples|
      invariant 0 <= i <= |plan.samples|
      invariant Fold(step, c.(samples := []), plan.samples[..i]) == Some(d)
    {
      var frozen := plan.samples[i];
      assert plan.samples[..i + 1] == plan.samples[..i] + [frozen];
      FoldSnoc(step, c.(samples := []), plan.samples[..i], frozen);
      var named := CheckSample(groups, plan, frozen, |arm.rows|);
      if !named {
        RefusalStands(step, c.(samples := []), plan.samples[..i + 1], plan.samples[i + 1..]);
        assert plan.samples[..i + 1] + plan.samples[i + 1..] == plan.samples;
        return None;
      }
      var g := groups[frozen.group];
      var sample := MakeSample(arm, g, plan, id);
      d := d.(samples := d.samples + [sample], measured := d.measured + frozen.ordinals,
              seconds := d.seconds + g.makespan, tokens := d.tokens + g.tokens);
      i := i + 1;
    }
    assert plan.samples[..i] == plan.samples;
    next := Some(d.(cases := c.cases + [Latency.Case(plan.name, plan.concurrency, plan.contract, d.samples)]));
  }

  method ProjectCases(arm: Arm, groups: map<string, Executed>, id: Identity, cases: seq<CasePlan>)
    returns (carried: Option<Carried>)
    requires |arm.answers| == |arm.rows|
    ensures carried == Fold(AddCase(arm, groups, id), Fresh, cases)
  {
    var step := AddCase(arm, groups, id);
    var c, i := Fresh, 0;
    while i < |cases|
      invariant 0 <= i <= |cases|
      invariant Fold(step, Fresh, cases[..i]) == Some(c)
    {
      assert cases[..i + 1] == cases[..i] + [cases[i]];
      FoldSnoc(step, Fresh, cases[..i], cases[i]);
      var next := ProjectCase(arm, groups, id, c, cases[i]);
      if next.None? {
        RefusalStands(step, Fresh, cases[..i + 1], cases[i + 1..]);
        assert cases[..i + 1] + cases[i + 1..] == cases;
        return None;
      }
      c := next.value;
      i := i + 1;
    }
    assert cases[..i] == cases;
    carried := Some(c);
  }

  method ScoreArm(arm: Arm, workload: Workload, id: Identity, policy: Latency.Policy) returns (product: Option<Product>)
    requires Latency.ValidPolicy(policy) && workload.requests >= WARMUPS
    ensures product.Some? <==> ArmScored(arm, workload, id, policy)
    ensures product.Some? ==> product.value == ProductOf(arm, workload, id, policy)
  {
    var groups := JoinArm(arm, workload);
    if groups.None? { return None; }
    var carried := ProjectCases(arm, groups.value, id, workload.cases);
    if carried.None? { return None; }
    var scorable := CheckScorable(carried.value, workload.requests, id, policy);
    if !scorable { return None; }
    product := Some(Product(Series(carried.value, id), carried.value.tokens, carried.value.seconds));
  }

  method CheckScorable(c: Carried, requests: nat, id: Identity, policy: Latency.Policy) returns (ok: bool)
    requires Latency.ValidPolicy(policy) && requests >= WARMUPS
    ensures ok <==> Scorable(c, requests, id, policy)
  {
    if multiset(c.measured) != multiset(Count(WARMUPS, requests - WARMUPS)) { return false; }
    var checked := Latency.Series(Series(c, id), policy);
    ok := checked.Ok?;
  }

  // ----- measured tokens

  lemma {:induction false} OutputsConcat(answers: seq<Answer>, one: seq<nat>, two: seq<nat>)
    ensures Outputs(answers, one + two) == Outputs(answers, one) + Outputs(answers, two)
    decreases |two|
  {
    if two == [] {
      assert one + two == one;
    } else {
      assert (one + two)[..|one + two| - 1] == one + two[..|two| - 1];
      OutputsConcat(answers, one, two[..|two| - 1]);
    }
  }

  lemma {:induction false} OutputsOrderFree(answers: seq<Answer>, one: seq<nat>, two: seq<nat>)
    requires multiset(one) == multiset(two)
    ensures Outputs(answers, one) == Outputs(answers, two)
    decreases |one|
  {
    if one == [] {
      assert |multiset(two)| == 0;
    } else {
      var k := SameBagLast(one, two);
      var front, back := two[..k], two[k + 1..];
      OutputsOrderFree(answers, one[..|one| - 1], front + back);
      OutputsConcat(answers, front, back);
      OutputsConcat(answers, front + [two[k]], back);
      OutputsConcat(answers, front, [two[k]]);
      assert two == front + [two[k]] + back;
      assert [two[k]][..0] == [];
      assert Outputs(answers, [two[k]]) == if two[k] < |answers| then answers[two[k]].output else 0;
    }
  }

  predicate Agrees(c: Carried, arm: Arm) { c.tokens == Outputs(arm.answers, c.measured) }

  predicate GroupsCount(groups: map<string, Executed>, arm: Arm) {
    forall id :: id in groups ==> groups[id].tokens == Outputs(arm.answers, groups[id].ordinals)
  }

  lemma {:induction false} NamedCount(groups: seq<Executed>, arm: Arm)
    requires forall i :: 0 <= i < |groups| ==> groups[i].tokens == Outputs(arm.answers, groups[i].ordinals)
    ensures GroupsCount(Named(groups), arm)
  {
    if groups != [] { NamedCount(groups[..|groups| - 1], arm); }
  }

  lemma {:induction false} SamplesAgree(arm: Arm, groups: map<string, Executed>, plan: CasePlan, id: Identity, c: Carried,
                                        samples: seq<Sample>)
    requires |arm.answers| == |arm.rows| && GroupsCount(groups, arm) && Agrees(c, arm)
    requires Fold(AddSample(arm, groups, plan, id), c, samples).Some?
    ensures Agrees(Fold(AddSample(arm, groups, plan, id), c, samples).value, arm)
  {
    if samples != [] {
      var step, front, last := AddSample(arm, groups, plan, id), samples[..|samples| - 1], samples[|samples| - 1];
      SamplesAgree(arm, groups, plan, id, c, front);
      OutputsConcat(arm.answers, Fold(step, c, front).value.measured, last.ordinals);
    }
  }

  lemma {:induction false} CasesAgree(arm: Arm, groups: map<string, Executed>, id: Identity, cases: seq<CasePlan>)
    requires |arm.answers| == |arm.rows| && GroupsCount(groups, arm)
    requires Fold(AddCase(arm, groups, id), Fresh, cases).Some?
    ensures Agrees(Fold(AddCase(arm, groups, id), Fresh, cases).value, arm)
  {
    if cases != [] {
      var front, last := cases[..|cases| - 1], cases[|cases| - 1];
      CasesAgree(arm, groups, id, front);
      var c := Fold(AddCase(arm, groups, id), Fresh, front).value;
      SamplesAgree(arm, groups, last, id, c.(samples := []), last.samples);
    }
  }

  /** The measured output tokens of a report are the tokens of exactly the requests after the warmups. */
  lemma TokensConserved(arm: Arm, workload: Workload, id: Identity, policy: Latency.Policy)
    requires ArmScored(arm, workload, id, policy)
    ensures ProductOf(arm, workload, id, policy).tokens ==
            Outputs(arm.answers, Count(WARMUPS, workload.requests - WARMUPS))
  {
    ArmAgrees(arm, workload, id);
    OutputsOrderFree(arm.answers, Projected(arm, workload, id).value.measured,
                     Count(WARMUPS, workload.requests - WARMUPS));
  }

  lemma ArmAgrees(arm: Arm, workload: Workload, id: Identity)
    requires ArmOk(arm, workload) && Projected(arm, workload, id).Some?
    ensures Agrees(Projected(arm, workload, id).value, arm)
  {
    forall i | 0 <= i < |arm.groups|
      ensures arm.groups[i].tokens == Outputs(arm.answers, arm.groups[i].ordinals)
    {
      assert GroupOk(arm.groups[i], workload.groups[i], arm);
    }
    NamedCount(arm.groups, arm);
    CasesAgree(arm, Named(arm.groups), id, workload.cases);
  }
}
