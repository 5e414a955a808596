/** Which evidence makes an arm's series one that the comparator accepts. */
module ArmEvidence {
  import opened Results
  import opened Bags
  import opened Folding
  import opened Menu
  import opened MenuSchedule
  import opened Arms
  import opened ArmSeries
  import Latency

  // ----- the conditions on the evidence itself

  /** The counts and the response of one request. */
  predicate RequestFits(arm: Arm, o: nat) {
    && o < |arm.rows| && o < |arm.answers|
    && 1 <= arm.rows[o].prompt <= 1048576 && 1 <= arm.answers[o].output <= 1048576
    && 0 <= arm.answers[o].reasoning <= 1048576 && 1 <= arm.answers[o].final <= 1048576
    && arm.answers[o].reasoning + arm.answers[o].final <= arm.answers[o].output
    && Latency.Hex(arm.answers[o].response, 64)
  }

  predicate RequestsFit(arm: Arm, ordinals: seq<nat>) {
    forall j :: 0 <= j < |ordinals| ==> RequestFits(arm, ordinals[j])
  }

  function SampleId(id: Identity, group: string): string {
    id.observation + ":" + id.arm.Label() + ":" + group
  }

  predicate NameFits(id: Identity, group: string) {
    0 < |group| <= 80 && |SampleId(id, group)| <= 128
  }

  predicate SampleFitsPlan(arm: Arm, plan: CasePlan, k: nat, id: Identity)
    requires k < |plan.samples|
  {
    && NameFits(id, plan.samples[k].group) && RequestsFit(arm, plan.samples[k].ordinals)
    && Picked(plan.samples[k].ordinals, PromptAt(arm)) == Picked(plan.samples[0].ordinals, PromptAt(arm))
  }

  predicate PlanHeader(plan: CasePlan, policy: Latency.Policy) {
    && 0 < |plan.name| <= 128 && (plan.concurrency == 1 || plan.concurrency == 2) && Latency.Hex(plan.contract, 64)
    && policy.minimumSamples <= |plan.samples| <= 32
  }

  predicate PlanFits(arm: Arm, plan: CasePlan, id: Identity, policy: Latency.Policy) {
    PlanHeader(plan, policy) && forall k :: 0 <= k < |plan.samples| ==> SampleFitsPlan(arm, plan, k, id)
  }

  predicate IdentityFits(id: Identity) {
    && Latency.Hex(id.selection, 64) && Latency.Hex(id.runtime, 64) && Latency.Hex(id.workload, 64)
    && Latency.Hex(id.candidate, 64) && Latency.Hex(id.seal, 64) && Latency.Hex(id.quality, 64)
    && Latency.Hex(id.observation, 16) && id.arm != Latency.NoArm
  }

  predicate DistinctPlans(plans: seq<CasePlan>) {
    forall i, j :: 0 <= i < j < |plans| ==> plans[i].name != plans[j].name
  }

  predicate BothLevels(plans: seq<CasePlan>) {
    && (exists i :: 0 <= i < |plans| && plans[i].concurrency == 1)
    && (exists i :: 0 <= i < |plans| && plans[i].concurrency == 2)
  }

  predicate EvidenceFits(arm: Arm, plans: seq<CasePlan>, id: Identity, policy: Latency.Policy) {
    && IdentityFits(id) && 2 <= |plans| <= 64 && DistinctPlans(plans) && BothLevels(plans)
    && AllFit(arm, plans, id, policy)
  }

  // ----- one sample

  /** What the join has checked of a group. */
  predicate GoodGroup(g: Executed, arm: Arm) {
    && g.concurrency == |g.ordinals| && InRange(g.ordinals, |arm.rows|)
    && g.times == Elapsed(arm.rows, g.ordinals)
    && g.makespan > 0.0 && forall i :: 0 <= i < |g.times| ==> g.times[i] <= g.makespan + SLACK
  }

  lemma {:induction false} NamedIs(groups: seq<Executed>, name: string) returns (i: nat)
    requires name in Named(groups)
    ensures i < |groups| && groups[i] == Named(groups)[name]
  {
    i := |groups| - 1;
    if name != groups[i].id { i := NamedIs(groups[..i], name); }
  }

  lemma NamedGood(arm: Arm, workload: Workload, name: string)
    requires ArmOk(arm, workload) && name in Named(arm.groups)
    ensures GoodGroup(Named(arm.groups)[name], arm)
  {
    var i := NamedIs(arm.groups, name);
    assert GroupOk(arm.groups[i], workload.groups[i], arm);
  }

  predicate TimesOk(s: Latency.Sample) {
    Latency.Stats.Positive(s.times) && s.wall > 0.0 && forall i :: 0 <= i < |s.times| ==> s.times[i] <= s.wall + 0.001
  }

  lemma GoodTimes(arm: Arm, g: Executed, plan: CasePlan, id: Identity)
    requires |arm.answers| == |arm.rows| && GoodGroup(g, arm)
    requires forall i :: 0 <= i < |arm.rows| ==> arm.rows[i].elapsed > 0.0
    ensures TimesOk(SampleOf(arm, g, plan, id))
  {
    var s := SampleOf(arm, g, plan, id);
    forall i | 0 <= i < |s.times|
      ensures 0.0 < s.times[i] <= s.wall + 0.001
    {
      assert s.times[i] == 1000.0 * arm.rows[g.ordinals[i]].elapsed;
      assert g.times[i] == arm.rows[g.ordinals[i]].elapsed;
    }
  }

  predicate CountsOk(s: Latency.Sample, n: int) {
    && Latency.Counts(s.prompt, n, 1) && Latency.Counts(s.completion, n, 1)
    && Latency.Counts(s.reasoning, n, 0) && Latency.Counts(s.final, n, 1)
    && (forall i :: 0 <= i < n ==> s.reasoning[i] + s.final[i] <= s.completion[i])
    && |s.responses| == n && forall i :: 0 <= i < |s.responses| ==> Latency.Hex(s.responses[i], 64)
  }

  lemma CountsWhen(arm: Arm, g: Executed, plan: CasePlan, id: Identity)
    requires |arm.answers| == |arm.rows| && GoodGroup(g, arm)
    ensures CountsOk(SampleOf(arm, g, plan, id), |g.ordinals|) <==> RequestsFit(arm, g.ordinals)
  {
    var s, n := SampleOf(arm, g, plan, id), |g.ordinals|;
    forall i | 0 <= i < n
      ensures s.prompt[i] == arm.rows[g.ordinals[i]].prompt && s.completion[i] == arm.answers[g.ordinals[i]].output
      ensures s.reasoning[i] == arm.answers[g.ordinals[i]].reasoning && s.final[i] == arm.answers[g.ordinals[i]].final
      ensures s.responses[i] == arm.answers[g.ordinals[i]].response
    {
    }
    if CountsOk(s, n) {
      forall i | 0 <= i < n ensures RequestFits(arm, g.ordinals[i]) {
        assert s.reasoning[i] + s.final[i] <= s.completion[i] && Latency.Hex(s.responses[i], 64);
      }
    }
    if RequestsFit(arm, g.ordinals) {
      forall i | 0 <= i < n
        ensures 1 <= s.prompt[i] <= 1048576 && 1 <= s.completion[i] <= 1048576
        ensures 0 <= s.reasoning[i] <= 1048576 && 1 <= s.final[i] <= 1048576
        ensures s.reasoning[i] + s.final[i] <= s.completion[i] && Latency.Hex(s.responses[i], 64)
      {
        assert RequestFits(arm, g.ordinals[i]);
      }
    }
  }

  lemma SampleOkWhen(arm: Arm, g: Executed, plan: CasePlan, id: Identity)
    requires |arm.answers| == |arm.rows| && GoodGroup(g, arm) && plan.concurrency == g.concurrency
    requires forall i :: 0 <= i < |arm.rows| ==> arm.rows[i].elapsed > 0.0
    ensures Latency.SampleOk(SampleOf(arm, g, plan, id), id.observation, id.arm, plan.concurrency) <==>
            NameFits(id, g.id) && RequestsFit(arm, g.ordinals)
  {
    GoodTimes(arm, g, plan, id);
    CountsWhen(arm, g, plan, id);
    SampleOkParts(SampleOf(arm, g, plan, id), id, plan.concurrency, g.id);
  }

  lemma SampleOkParts(s: Latency.Sample, id: Identity, n: nat, group: string)
    requires s.group == group && s.id == SampleId(id, group) && TimesOk(s) && |s.times| == n
    requires !s.warmup && s.completed == n && s.qualityPassed
    ensures Latency.SampleOk(s, id.observation, id.arm, n) <==>
            NameFits(id, group) && CountsOk(s, n)
  {
  }

  // ----- one case

  lemma SampleFitsWhen(arm: Arm, workload: Workload, plan: CasePlan, k: nat, id: Identity)
    requires ArmOk(arm, workload) && SamplesNamed(Named(arm.groups), plan, plan.samples, |arm.rows|)
    requires k < |plan.samples|
    ensures Latency.SampleFits(CaseOf(arm, Named(arm.groups), plan, id), k, id.observation, id.arm) <==>
            SampleFitsPlan(arm, plan, k, id)
  {
    var groups := Named(arm.groups);
    assert Identifies(groups, plan, plan.samples[k], |arm.rows|) && Identifies(groups, plan, plan.samples[0], |arm.rows|);
    var g := groups[plan.samples[k].group];
    NamedGood(arm, workload, plan.samples[k].group);
    SampleOkWhen(arm, g, plan, id);
    var c := CaseOf(arm, groups, plan, id);
    assert c.samples[k] == SampleOf(arm, g, plan, id);
    assert c.samples[0] == SampleOf(arm, groups[plan.samples[0].group], plan, id);
  }

  lemma CaseOkWhen(arm: Arm, workload: Workload, plan: CasePlan, id: Identity, policy: Latency.Policy)
    requires ArmOk(arm, workload) && SamplesNamed(Named(arm.groups), plan, plan.samples, |arm.rows|)
    ensures Latency.CaseOk(CaseOf(arm, Named(arm.groups), plan, id), id.observation, id.arm, policy) <==>
            PlanFits(arm, plan, id, policy)
  {
    var c := CaseOf(arm, Named(arm.groups), plan, id);
    forall k | 0 <= k < |plan.samples|
      ensures Latency.SampleFits(c, k, id.observation, id.arm) <==> SampleFitsPlan(arm, plan, k, id)
    {
      SampleFitsWhen(arm, workload, plan, k, id);
    }
    assert Latency.CaseHeader(c, policy) <==> PlanHeader(plan, policy);
  }

  // ----- no sample is used twice

  function AllSamples(plans: seq<CasePlan>): seq<Sample> {
    if plans == [] then [] else AllSamples(plans[..|plans| - 1]) + plans[|plans| - 1].samples
  }

  lemma {:induction false} OrdinalsConcat(one: seq<Sample>, two: seq<Sample>)
    ensures Ordinals(one + two) == Ordinals(one) + Ordinals(two)
    decreases |two|
  {
    if two == [] {
      assert one + two == one;
    } else {
      assert (one + two)[..|one + two| - 1] == one + two[..|two| - 1];
      OrdinalsConcat(one, two[..|two| - 1]);
    }
  }

  lemma {:induction false} MeasuredAre(plans: seq<CasePlan>)
    ensures Measured(plans) == Ordinals(AllSamples(plans))
  {
    if plans != [] {
      MeasuredAre(plans[..|plans| - 1]);
      OrdinalsConcat(AllSamples(plans[..|plans| - 1]), plans[|plans| - 1].samples);
    }
  }

  lemma {:induction false} MeasuredOnce(samples: seq<Sample>, i: nat, o: nat)
    requires i < |samples| && o in samples[i].ordinals
    ensures o in multiset(Ordinals(samples))
  {
    var front, last := samples[..|samples| - 1], samples[|samples| - 1];
    if i < |front| { MeasuredOnce(front, i, o); }
    assert Ordinals(samples) == Ordinals(front) + last.ordinals;
  }

  lemma {:induction false} MeasuredTwice(samples: seq<Sample>, i: nat, j: nat, o: nat)
    requires i < j < |samples| && o in samples[i].ordinals && o in samples[j].ordinals
    ensures multiset(Ordinals(samples))[o] >= 2
  {
    var front, last := samples[..|samples| - 1], samples[|samples| - 1];
    assert Ordinals(samples) == Ordinals(front) + last.ordinals;
    if j < |front| {
      MeasuredTwice(front, i, j, o);
    } else {
      MeasuredOnce(front, i, o);
      assert o in multiset(last.ordinals);
    }
  }

  /** Every sample names a group with its ordinals, and has some. */
  predicate SamplesBound(groups: map<string, Executed>, samples: seq<Sample>) {
    forall k :: 0 <= k < |samples| ==>
      samples[k].group in groups && groups[samples[k].group].ordinals == samples[k].ordinals && samples[k].ordinals != []
  }

  lemma ScoredOnceApart(groups: map<string, Executed>, samples: seq<Sample>, first: nat, n: nat, i: nat, j: nat)
    requires SamplesBound(groups, samples) && multiset(Ordinals(samples)) == multiset(Count(first, n))
    requires i < j < |samples|
    ensures samples[i].group != samples[j].group
  {
    if samples[i].group == samples[j].group {
      var o := samples[i].ordinals[0];
      MeasuredTwice(samples, i, j, o);
      OnceEach(Count(first, n), o);
    }
  }

  lemma {:induction false} SamplesBoundAll(arm: Arm, groups: map<string, Executed>, plans: seq<CasePlan>)
    requires AllNamed(groups, plans, |arm.rows|)
    requires forall name :: name in groups ==> GoodGroup(groups[name], arm)
    requires forall i :: 0 <= i < |plans| ==> plans[i].concurrency > 0
    ensures SamplesBound(groups, AllSamples(plans))
  {
    if plans != [] {
      var front, last := plans[..|plans| - 1], plans[|plans| - 1];
      assert forall i :: 0 <= i < |front| ==> front[i] == plans[i];
      SamplesBoundAll(arm, groups, front);
      assert SamplesNamed(groups, last, last.samples, |arm.rows|);
      forall k | 0 <= k < |last.samples|
        ensures last.samples[k].group in groups && groups[last.samples[k].group].ordinals == last.samples[k].ordinals
        ensures last.samples[k].ordinals != []
      {
        assert Identifies(groups, last, last.samples[k], |arm.rows|);
      }
      BoundConcat(groups, AllSamples(front), last.samples);
    }
  }

  lemma BoundConcat(groups: map<string, Executed>, one: seq<Sample>, two: seq<Sample>)
    requires SamplesBound(groups, one) && SamplesBound(groups, two)
    ensures SamplesBound(groups, one + two)
  {
  }

  function IdsFor(id: Identity, samples: seq<Sample>): (ids: seq<string>)
    ensures |ids| == |samples| && forall k :: 0 <= k < |ids| ==> ids[k] == SampleId(id, samples[k].group)
  {
    if samples == [] then [] else IdsFor(id, samples[..|samples| - 1]) + [SampleId(id, samples[|samples| - 1].group)]
  }

  lemma CaseIds(arm: Arm, groups: map<string, Executed>, plan: CasePlan, id: Identity)
    requires |arm.answers| == |arm.rows| && SamplesNamed(groups, plan, plan.samples, |arm.rows|)
    ensures Latency.IdsOf(CaseOf(arm, groups, plan, id).samples) == IdsFor(id, plan.samples)
  {
    var samples := CaseOf(arm, groups, plan, id).samples;
    forall k | 0 <= k < |samples|
      ensures Latency.IdsOf(samples)[k] == IdsFor(id, plan.samples)[k]
    {
      assert Identifies(groups, plan, plan.samples[k], |arm.rows|);
      assert samples[k] == SampleOf(arm, groups[plan.samples[k].group], plan, id);
    }
  }

  lemma IdsForConcat(id: Identity, one: seq<Sample>, two: seq<Sample>)
    ensures IdsFor(id, one + two) == IdsFor(id, one) + IdsFor(id, two)
  {
  }

  lemma {:induction false} SeriesIds(arm: Arm, groups: map<string, Executed>, plans: seq<CasePlan>, id: Identity)
    requires |arm.answers| == |arm.rows| && AllNamed(groups, plans, |arm.rows|)
    ensures Latency.SampleIds(CasesOf(arm, groups, plans, id)) == IdsFor(id, AllSamples(plans))
  {
    if plans != [] {
      var front, last := plans[..|plans| - 1], plans[|plans| - 1];
      assert AllNamed(groups, front, |arm.rows|) by { assert forall i :: 0 <= i < |front| ==> front[i] == plans[i]; }
      assert SamplesNamed(groups, last, last.samples, |arm.rows|);
      SeriesIds(arm, groups, front, id);
      CaseIds(arm, groups, last, id);
      IdsForConcat(id, AllSamples(front), last.samples);
      SeriesIdsNext(CasesOf(arm, groups, front, id), CaseOf(arm, groups, last, id));
    }
  }

  lemma SeriesIdsNext(front: seq<Latency.Case>, last: Latency.Case)
    ensures Latency.SampleIds(front + [last]) == Latency.SampleIds(front) + Latency.IdsOf(last.samples)
  {
    assert (front + [last])[..|front|] == front;
  }

  lemma IdInjective(id: Identity, one: string, two: string)
    requires SampleId(id, one) == SampleId(id, two)
    ensures one == two
  {
    var head := id.observation + ":" + id.arm.Label() + ":";
    assert SampleId(id, one) == head + one && SampleId(id, two) == head + two;
    assert one == (head + one)[|head|..] && two == (head + two)[|head|..];
  }

  /** Scored once, the samples of a series have distinct identities. */
  lemma DistinctIdentities(arm: Arm, groups: map<string, Executed>, plans: seq<CasePlan>, id: Identity, first: nat, n: nat)
    requires |arm.answers| == |arm.rows| && AllNamed(groups, plans, |arm.rows|)
    requires SamplesBound(groups, AllSamples(plans)) && multiset(Measured(plans)) == multiset(Count(first, n))
    ensures Latency.Distinct(Latency.SampleIds(CasesOf(arm, groups, plans, id)))
  {
    MeasuredAre(plans);
    SeriesIds(arm, groups, plans, id);
    NamesApart(groups, AllSamples(plans), first, n, id);
  }

  lemma NamesApart(groups: map<string, Executed>, samples: seq<Sample>, first: nat, n: nat, id: Identity)
    requires SamplesBound(groups, samples) && multiset(Ordinals(samples)) == multiset(Count(first, n))
    ensures Latency.Distinct(IdsFor(id, samples))
  {
    var ids := IdsFor(id, samples);
    forall i, j | 0 <= i < j < |ids| ensures ids[i] != ids[j] {
      ScoredOnceApart(groups, samples, first, n, i, j);
      if ids[i] == ids[j] { IdInjective(id, samples[i].group, samples[j].group); }
    }
  }

  // ----- the whole series

  predicate CaseFitsPlan(c: Latency.Case, arm: Arm, plan: CasePlan, id: Identity, policy: Latency.Policy) {
    && c.id == plan.name && c.concurrency == plan.concurrency
    && (Latency.CaseOk(c, id.observation, id.arm, policy) <==> PlanFits(arm, plan, id, policy))
  }

  predicate CasesFitPlans(cases: seq<Latency.Case>, arm: Arm, plans: seq<CasePlan>, id: Identity, policy: Latency.Policy) {
    |cases| == |plans| && forall i :: 0 <= i < |cases| ==> CaseFitsPlan(cases[i], arm, plans[i], id, policy)
  }

  lemma CasesFit(arm: Arm, workload: Workload, id: Identity, policy: Latency.Policy)
    requires ArmOk(arm, workload) && AllNamed(Named(arm.groups), workload.cases, |arm.rows|)
    ensures CasesFitPlans(CasesOf(arm, Named(arm.groups), workload.cases, id), arm, workload.cases, id, policy)
  {
    forall i | 0 <= i < |workload.cases|
      ensures CaseFitsPlan(CasesOf(arm, Named(arm.groups), workload.cases, id)[i], arm, workload.cases[i], id, policy)
    {
      CaseOkWhen(arm, workload, workload.cases[i], id, policy);
    }
  }

  predicate GoodGroups(groups: map<string, Executed>, arm: Arm) {
    forall name :: name in groups ==> GoodGroup(groups[name], arm)
  }

  lemma ArmGroupsGood(arm: Arm, workload: Workload)
    requires ArmOk(arm, workload)
    ensures GoodGroups(Named(arm.groups), arm) && |arm.answers| == |arm.rows|
  {
    forall name | name in Named(arm.groups) ensures GoodGroup(Named(arm.groups)[name], arm) {
      NamedGood(arm, workload, name);
    }
  }

  predicate AllFit(arm: Arm, plans: seq<CasePlan>, id: Identity, policy: Latency.Policy) {
    forall i :: 0 <= i < |plans| ==> PlanFits(arm, plans[i], id, policy)
  }

  lemma FitLevels(arm: Arm, plans: seq<CasePlan>, id: Identity, policy: Latency.Policy)
    requires AllFit(arm, plans, id, policy)
    ensures forall i :: 0 <= i < |plans| ==> plans[i].concurrency > 0
  {
    forall i | 0 <= i < |plans| ensures plans[i].concurrency > 0 { assert PlanFits(arm, plans[i], id, policy); }
  }

  lemma FitIsDistinct(arm: Arm, groups: map<string, Executed>, plans: seq<CasePlan>, id: Identity, first: nat, n: nat)
    requires |arm.answers| == |arm.rows| && GoodGroups(groups, arm) && AllNamed(groups, plans, |arm.rows|)
    requires multiset(Measured(plans)) == multiset(Count(first, n))
    requires forall i :: 0 <= i < |plans| ==> plans[i].concurrency > 0
    ensures Latency.Distinct(Latency.SampleIds(CasesOf(arm, groups, plans, id)))
  {
    SamplesBoundAll(arm, groups, plans);
    DistinctIdentities(arm, groups, plans, id, first, n);
  }

  /** What a projection yields: cases that match their plans, from good groups. */
  predicate Yields(arm: Arm, groups: map<string, Executed>, plans: seq<CasePlan>, c: Carried, id: Identity,
                   policy: Latency.Policy)
  {
    && |arm.answers| == |arm.rows| && GoodGroups(groups, arm) && AllNamed(groups, plans, |arm.rows|)
    && c.cases == CasesOf(arm, groups, plans, id) && CasesFitPlans(c.cases, arm, plans, id, policy)
    && c.measured == Measured(plans)
  }

  lemma ProjectionYields(arm: Arm, workload: Workload, id: Identity, policy: Latency.Policy) returns (c: Carried)
    requires ArmOk(arm, workload) && Projected(arm, workload, id).Some?
    ensures c == Projected(arm, workload, id).value
    ensures Yields(arm, Named(arm.groups), workload.cases, c, id, policy)
  {
    ArmGroupsGood(arm, workload);
    CasesFold(arm, Named(arm.groups), id, workload.cases);
    CasesFit(arm, workload, id, policy);
    c := Projected(arm, workload, id).value;
  }

  lemma YieldsDistinct(arm: Arm, groups: map<string, Executed>, plans: seq<CasePlan>, c: Carried, id: Identity,
                       policy: Latency.Policy, requests: nat)
    requires requests >= WARMUPS && Yields(arm, groups, plans, c, id, policy) && AllFit(arm, plans, id, policy)
    requires multiset(c.measured) == multiset(Count(WARMUPS, requests - WARMUPS))
    ensures Latency.Distinct(Latency.SampleIds(c.cases))
  {
    FitLevels(arm, plans, id, policy);
    FitIsDistinct(arm, groups, plans, id, WARMUPS, requests - WARMUPS);
  }

  lemma YieldedValidWhen(arm: Arm, groups: map<string, Executed>, plans: seq<CasePlan>, c: Carried, id: Identity,
                         policy: Latency.Policy, requests: nat)
    requires requests >= WARMUPS && Yields(arm, groups, plans, c, id, policy)
    requires multiset(c.measured) == multiset(Count(WARMUPS, requests - WARMUPS))
    ensures Latency.ValidSeries(Series(c, id), policy) <==> EvidenceFits(arm, plans, id, policy)
  {
    if AllFit(arm, plans, id, policy) {
      YieldsDistinct(arm, groups, plans, c, id, policy, requests);
    }
    SeriesParts(Series(c, id), c.cases, plans, arm, id, policy);
  }

  /** The series of an arm that joined, and scores each request after the warmups once, is valid
      exactly when its evidence fits: sound identities and counts, enough samples of distinct cases of
      both levels, and prompt counts that repeat within each case. */
  lemma SeriesValidWhen(arm: Arm, workload: Workload, id: Identity, policy: Latency.Policy)
    requires ArmOk(arm, workload) && Projected(arm, workload, id).Some? && workload.requests >= WARMUPS
    requires multiset(Projected(arm, workload, id).value.measured)
          == multiset(Count(WARMUPS, workload.requests - WARMUPS))
    ensures Latency.ValidSeries(Series(Projected(arm, workload, id).value, id), policy) <==>
            EvidenceFits(arm, workload.cases, id, policy)
  {
    hide *;
    var c := ProjectionYields(arm, workload, id, policy);
    YieldedValidWhen(arm, Named(arm.groups), workload.cases, c, id, policy, workload.requests);
  }

  lemma SeriesParts(r: Latency.Record, cases: seq<Latency.Case>, plans: seq<CasePlan>, arm: Arm, id: Identity,
                    policy: Latency.Policy)
    requires r == Latency.Record(1, true, false, true, true, true, id.selection, id.runtime, id.workload, id.candidate,
                                 id.seal, id.quality, id.observation, id.arm, cases)
    requires CasesFitPlans(cases, arm, plans, id, policy)
    requires AllFit(arm, plans, id, policy) ==> Latency.Distinct(Latency.SampleIds(cases))
    ensures Latency.ValidSeries(r, policy) <==> EvidenceFits(arm, plans, id, policy)
  {
    assert Latency.Header(r) <==> IdentityFits(id) && 2 <= |plans| <= 64;
    NamesAre(cases, arm, plans, id, policy);
    LevelsAre(cases, plans);
    CasesOkWhen(r, arm, plans, id, policy);
  }

  lemma NamesAre(cases: seq<Latency.Case>, arm: Arm, plans: seq<CasePlan>, id: Identity, policy: Latency.Policy)
    requires CasesFitPlans(cases, arm, plans, id, policy)
    ensures Latency.DistinctCases(cases) <==> DistinctPlans(plans)
    ensures |cases| == |plans| && forall i :: 0 <= i < |cases| ==> cases[i].concurrency == plans[i].concurrency
  {
    forall i | 0 <= i < |cases|
      ensures cases[i].id == plans[i].name && cases[i].concurrency == plans[i].concurrency
    {
      assert CaseFitsPlan(cases[i], arm, plans[i], id, policy);
    }
  }

  lemma CasesOkWhen(r: Latency.Record, arm: Arm, plans: seq<CasePlan>, id: Identity, policy: Latency.Policy)
    requires r.observation == id.observation && r.arm == id.arm && CasesFitPlans(r.cases, arm, plans, id, policy)
    ensures Latency.CasesOk(r, |r.cases|, policy) <==> AllFit(arm, plans, id, policy)
  {
    forall i | 0 <= i < |plans|
      ensures Latency.CaseOk(r.cases[i], r.observation, r.arm, policy) <==> PlanFits(arm, plans[i], id, policy)
    {
      assert CaseFitsPlan(r.cases[i], arm, plans[i], id, policy);
    }
  }

  lemma LevelsAre(cases: seq<Latency.Case>, plans: seq<CasePlan>)
    requires |cases| == |plans| && forall i :: 0 <= i < |cases| ==> cases[i].concurrency == plans[i].concurrency
    ensures Latency.BothConcurrencies(cases) <==> BothLevels(plans)
  {
    if Latency.BothConcurrencies(cases) {
      var i :| 0 <= i < |cases| && cases[i].concurrency == 1;
      var j :| 0 <= j < |cases| && cases[j].concurrency == 2;
      assert plans[i].concurrency == 1 && plans[j].concurrency == 2;
    }
    if BothLevels(plans) {
      var i :| 0 <= i < |plans| && plans[i].concurrency == 1;
      var j :| 0 <= j < |plans| && plans[j].concurrency == 2;
      assert cases[i].concurrency == 1 && cases[j].concurrency == 2;
    }
  }
}
