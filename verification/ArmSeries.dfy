/** What the projection of an arm yields, when it is a series, and when two of them compare. */
module ArmSeries {
  import opened Results
  import opened Bags
  import opened Folding
  import opened Menu
  import opened Arms
  import Latency
  import Compare

  // ----- the projection, said without its loops

  predicate SamplesNamed(groups: map<string, Executed>, plan: CasePlan, samples: seq<Sample>, n: nat) {
    forall k :: 0 <= k < |samples| ==> Identifies(groups, plan, samples[k], n)
  }

  function SamplesOf(arm: Arm, groups: map<string, Executed>, plan: CasePlan, id: Identity, samples: seq<Sample>)
    : (s: seq<Latency.Sample>)
    requires |arm.answers| == |arm.rows| && SamplesNamed(groups, plan, samples, |arm.rows|)
    ensures |s| == |samples|
    ensures forall k :: 0 <= k < |s| ==> s[k] == SampleOf(arm, groups[samples[k].group], plan, id)
  {
    if samples == [] then []
    else
      var front, last := samples[..|samples| - 1], samples[|samples| - 1];
      SamplesOf(arm, groups, plan, id, front) + [SampleOf(arm, groups[last.group], plan, id)]
  }

  function Ordinals(samples: seq<Sample>): seq<nat> {
    if samples == [] then [] else Ordinals(samples[..|samples| - 1]) + samples[|samples| - 1].ordinals
  }

  /** The requests the cases measure, in the order of the cases and their samples. */
  function Measured(cases: seq<CasePlan>): seq<nat> {
    if cases == [] then [] else Measured(cases[..|cases| - 1]) + Ordinals(cases[|cases| - 1].samples)
  }

  lemma {:induction false} SamplesFold(arm: Arm, groups: map<string, Executed>, plan: CasePlan, id: Identity, c: Carried,
                                       samples: seq<Sample>)
    requires |arm.answers| == |arm.rows|
    ensures var r := Fold(AddSample(arm, groups, plan, id), c, samples);
            && (r.Some? <==> SamplesNamed(groups, plan, samples, |arm.rows|))
            && (r.Some? ==>
                  && r.value.samples == c.samples + SamplesOf(arm, groups, plan, id, samples)
                  && r.value.measured == c.measured + Ordinals(samples) && r.value.cases == c.cases)
  {
    if samples != [] {
      var front, last := samples[..|samples| - 1], samples[|samples| - 1];
      SamplesFold(arm, groups, plan, id, c, front);
      NamedNext(groups, plan, front, last, |arm.rows|);
      assert samples == front + [last];
      FoldSnoc(AddSample(arm, groups, plan, id), c, front, last);
      if Fold(AddSample(arm, groups, plan, id), c, front).Some? {
        var before := Fold(AddSample(arm, groups, plan, id), c, front).value;
        SampleAdded(arm, groups, plan, id, before, last);
        if Identifies(groups, plan, last, |arm.rows|) {
          SamplesGrow(arm, groups, plan, id, c, front, last, before,
                      AddSample(arm, groups, plan, id)(before, last).value);
        }
      }
    }
  }

  lemma SamplesGrow(arm: Arm, groups: map<string, Executed>, plan: CasePlan, id: Identity, c: Carried,
                    front: seq<Sample>, last: Sample, before: Carried, after: Carried)
    requires |arm.answers| == |arm.rows| && SamplesNamed(groups, plan, front + [last], |arm.rows|)
    requires SamplesNamed(groups, plan, front, |arm.rows|) && Identifies(groups, plan, last, |arm.rows|)
    requires before.samples == c.samples + SamplesOf(arm, groups, plan, id, front)
    requires before.measured == c.measured + Ordinals(front)
    requires after.samples == before.samples + [SampleOf(arm, groups[last.group], plan, id)]
    requires after.measured == before.measured + last.ordinals
    ensures after.samples == c.samples + SamplesOf(arm, groups, plan, id, front + [last])
    ensures after.measured == c.measured + Ordinals(front + [last])
  {
    hide SampleOf, Identifies;
    assert (front + [last])[..|front|] == front;
  }

  lemma SampleAdded(arm: Arm, groups: map<string, Executed>, plan: CasePlan, id: Identity, c: Carried, s: Sample)
    requires |arm.answers| == |arm.rows|
    ensures var r := AddSample(arm, groups, plan, id)(c, s);
            && (r.Some? <==> Identifies(groups, plan, s, |arm.rows|))
            && (r.Some? ==>
                  && r.value.samples == c.samples + [SampleOf(arm, groups[s.group], plan, id)]
                  && r.value.measured == c.measured + s.ordinals && r.value.cases == c.cases)
  {
  }

  lemma NamedNext(groups: map<string, Executed>, plan: CasePlan, front: seq<Sample>, last: Sample, n: nat)
    ensures SamplesNamed(groups, plan, front + [last], n) <==>
            SamplesNamed(groups, plan, front, n) && Identifies(groups, plan, last, n)
  {
    var all := front + [last];
    if SamplesNamed(groups, plan, all, n) {
      assert all[|front|] == last;
      forall k | 0 <= k < |front| ensures Identifies(groups, plan, front[k], n) { assert all[k] == front[k]; }
    }
  }

  predicate AllNamed(groups: map<string, Executed>, cases: seq<CasePlan>, n: nat) {
    forall i :: 0 <= i < |cases| ==> SamplesNamed(groups, cases[i], cases[i].samples, n)
  }

  function CaseOf(arm: Arm, groups: map<string, Executed>, plan: CasePlan, id: Identity): Latency.Case
    requires |arm.answers| == |arm.rows| && SamplesNamed(groups, plan, plan.samples, |arm.rows|)
  {
    Latency.Case(plan.name, plan.concurrency, plan.contract, SamplesOf(arm, groups, plan, id, plan.samples))
  }

  function CasesOf(arm: Arm, groups: map<string, Executed>, cases: seq<CasePlan>, id: Identity)
    : (c: seq<Latency.Case>)
    requires |arm.answers| == |arm.rows| && AllNamed(groups, cases, |arm.rows|)
    ensures |c| == |cases| && forall i :: 0 <= i < |c| ==> c[i] == CaseOf(arm, groups, cases[i], id)
  {
    if cases == [] then []
    else CasesOf(arm, groups, cases[..|cases| - 1], id) + [CaseOf(arm, groups, cases[|cases| - 1], id)]
  }

  lemma {:induction false} CasesFold(arm: Arm, groups: map<string, Executed>, id: Identity, cases: seq<CasePlan>)
    requires |arm.answers| == |arm.rows|
    ensures var r := Fold(AddCase(arm, groups, id), Fresh, cases);
            && (r.Some? <==> AllNamed(groups, cases, |arm.rows|))
            && (r.Some? ==>
                  r.value.cases == CasesOf(arm, groups, cases, id) && r.value.measured == Measured(cases))
  {
    if cases != [] {
      var front, last := cases[..|cases| - 1], cases[|cases| - 1];
      CasesFold(arm, groups, id, front);
      AllNamedNext(groups, front, last, |arm.rows|);
      assert cases == front + [last];
      var before := Fold(AddCase(arm, groups, id), Fresh, front);
      if before.Some? {
        SamplesFold(arm, groups, last, id, before.value.(samples := []), last.samples);
        CaseAdded(arm, groups, id, before.value, last);
      }
    }
  }

  lemma AddCaseIs(arm: Arm, groups: map<string, Executed>, id: Identity, c: Carried, plan: CasePlan)
    requires |arm.answers| == |arm.rows|
    ensures AddCase(arm, groups, id)(c, plan) ==
            var d := Fold(AddSample(arm, groups, plan, id), c.(samples := []), plan.samples);
            if d.None? then None
            else Some(d.value.(cases := c.cases + [Latency.Case(plan.name, plan.concurrency, plan.contract, d.value.samples)]))
  {
  }

  lemma EmptyFirst<T>(items: seq<T>)
    ensures [] + items == items
  {
  }

  lemma CaseAdded(arm: Arm, groups: map<string, Executed>, id: Identity, c: Carried, plan: CasePlan)
    requires |arm.answers| == |arm.rows|
    ensures var r := AddCase(arm, groups, id)(c, plan);
            && (r.Some? <==> SamplesNamed(groups, plan, plan.samples, |arm.rows|))
            && (r.Some? ==>
                  && r.value.cases == c.cases + [CaseOf(arm, groups, plan, id)]
                  && r.value.measured == c.measured + Ordinals(plan.samples))
  {
    AddCaseIs(arm, groups, id, c, plan);
    SamplesFold(arm, groups, plan, id, c.(samples := []), plan.samples);
    if SamplesNamed(groups, plan, plan.samples, |arm.rows|) {
      EmptyFirst(SamplesOf(arm, groups, plan, id, plan.samples));
    }
  }

  lemma AllNamedNext(groups: map<string, Executed>, front: seq<CasePlan>, last: CasePlan, n: nat)
    ensures AllNamed(groups, front + [last], n) <==>
            AllNamed(groups, front, n) && SamplesNamed(groups, last, last.samples, n)
  {
    var all := front + [last];
    if AllNamed(groups, all, n) {
      assert all[|front|] == last;
      forall i | 0 <= i < |front| ensures SamplesNamed(groups, front[i], front[i].samples, n) {
        assert all[i] == front[i];
      }
    }
  }

  // ----- the two series of one job share no observation

  lemma {:induction false} IdOfSample(cases: seq<Latency.Case>, x: string) returns (i: nat, k: nat)
    requires x in Latency.SampleIds(cases)
    ensures i < |cases| && k < |cases[i].samples| && cases[i].samples[k].id == x
  {
    var front, last := cases[..|cases| - 1], cases[|cases| - 1];
    if x in Latency.SampleIds(front) {
      i, k := IdOfSample(front, x);
    } else {
      i := |cases| - 1;
      var ids := Latency.IdsOf(last.samples);
      k :| 0 <= k < |ids| && ids[k] == x;
    }
  }

  lemma IdSpelled(r: Latency.Record, p: Latency.Policy, x: string) returns (group: string)
    requires Latency.ValidSeries(r, p) && x in Latency.SampleIds(r.cases)
    ensures x == r.observation + ":" + r.arm.Label() + ":" + group
  {
    var i, k := IdOfSample(r.cases, x);
    assert Latency.CaseOk(r.cases[i], r.observation, r.arm, p);
    assert Latency.SampleFits(r.cases[i], k, r.observation, r.arm);
    group := r.cases[i].samples[k].group;
  }

  lemma SpelledApart(nonce: string, one: string, two: string)
    ensures nonce + ":" + "control" + ":" + one != nonce + ":" + "mtp" + ":" + two
  {
    var x, y := nonce + ":" + "control" + ":" + one, nonce + ":" + "mtp" + ":" + two;
    assert x[|nonce| + 1] == 'c' && y[|nonce| + 1] == 'm';
  }

  lemma ArmsApart(b: Latency.Record, c: Latency.Record, p: Latency.Policy)
    requires Latency.ValidSeries(b, p) && Latency.ValidSeries(c, p)
    requires b.arm == Latency.Control && c.arm == Latency.Mtp && b.observation == c.observation
    ensures Latency.Members(Latency.SampleIds(b.cases)) * Latency.Members(Latency.SampleIds(c.cases)) == {}
  {
    forall x | x in Latency.Members(Latency.SampleIds(b.cases)) && x in Latency.Members(Latency.SampleIds(c.cases))
      ensures false
    {
      var g := IdSpelled(b, p, x);
      var h := IdSpelled(c, p, x);
      SpelledApart(b.observation, g, h);
    }
  }

  // ----- when the two series compare

  /** Rows that name the same cases in the same order cover each other exactly when they match one by one. */
  lemma SameCasesWhen(before: seq<Latency.Row>, after: seq<Latency.Row>)
    requires |before| == |after| && Compare.DistinctRows(before)
    requires forall i :: 0 <= i < |before| ==> before[i].id == after[i].id
    ensures Compare.SameCases(before, after) <==> forall i :: 0 <= i < |before| ==> Compare.Matches(before[i], after[i])
  {
    forall i | 0 <= i < |before|
      ensures Compare.Find(after, before[i].id) == Some(after[i]) && Compare.Find(before, after[i].id) == Some(before[i])
      ensures Compare.Matched(before[i], after) <==> Compare.Matches(before[i], after[i])
    {
      Compare.FindAt(before, i);
      Compare.FindAt(after, i);
    }
  }

  /** Both arms counted the same prompt tokens for the case's requests. */
  predicate CasePromptsAgree(one: Arm, two: Arm, plan: CasePlan) {
    plan.samples == []
    || Picked(plan.samples[0].ordinals, PromptAt(one)) == Picked(plan.samples[0].ordinals, PromptAt(two))
  }

  predicate PromptsAgree(one: Arm, two: Arm, cases: seq<CasePlan>) {
    forall i :: 0 <= i < |cases| ==> CasePromptsAgree(one, two, cases[i])
  }

  function FirstPrompts(arm: Arm, plan: CasePlan): seq<int> {
    if plan.samples == [] then [] else Picked(plan.samples[0].ordinals, PromptAt(arm))
  }

  /** The row that an arm's series is reduced to for one case. */
  predicate RowOfPlan(row: Latency.Row, arm: Arm, plan: CasePlan) {
    && row.id == plan.name && row.concurrency == plan.concurrency && row.contract == plan.contract
    && |row.e2e| == |plan.samples| && row.prompts == FirstPrompts(arm, plan)
  }

  lemma CaseRow(arm: Arm, groups: map<string, Executed>, plan: CasePlan, id: Identity)
    requires |arm.answers| == |arm.rows| && SamplesNamed(groups, plan, plan.samples, |arm.rows|)
    ensures RowOfPlan(Latency.RowOf(CaseOf(arm, groups, plan, id)), arm, plan)
  {
    if plan.samples != [] {
      assert Identifies(groups, plan, plan.samples[0], |arm.rows|);
    }
  }

  predicate RowsOfPlans(rows: seq<Latency.Row>, arm: Arm, plans: seq<CasePlan>) {
    |rows| == |plans| && forall i :: 0 <= i < |rows| ==> RowOfPlan(rows[i], arm, plans[i])
  }

  lemma RowsAre(arm: Arm, groups: map<string, Executed>, plans: seq<CasePlan>, id: Identity)
    requires |arm.answers| == |arm.rows| && AllNamed(groups, plans, |arm.rows|)
    ensures RowsOfPlans(Latency.Rows(CasesOf(arm, groups, plans, id)), arm, plans)
  {
    var cases := CasesOf(arm, groups, plans, id);
    forall i | 0 <= i < |cases|
      ensures RowOfPlan(Latency.Rows(cases)[i], arm, plans[i])
    {
      assert Latency.Rows(cases)[i] == Latency.RowOf(cases[i]);
      CaseRow(arm, groups, plans[i], id);
    }
  }

  lemma SeriesRows(arm: Arm, workload: Workload, id: Identity, policy: Latency.Policy)
    requires ArmScored(arm, workload, id, policy)
    ensures var rows := Latency.Rows(ProductOf(arm, workload, id, policy).series.cases);
            RowsOfPlans(rows, arm, workload.cases) && Compare.DistinctRows(rows)
  {
    CasesFold(arm, Named(arm.groups), id, workload.cases);
    RowsAre(arm, Named(arm.groups), workload.cases, id);
    Compare.DistinctCasesRows(ProductOf(arm, workload, id, policy).series.cases);
  }

  lemma PlansMatch(before: Latency.Row, after: Latency.Row, one: Arm, two: Arm, plan: CasePlan)
    requires RowOfPlan(before, one, plan) && RowOfPlan(after, two, plan)
    ensures before.id == after.id
    ensures Compare.Matches(before, after) <==> CasePromptsAgree(one, two, plan)
  {
  }

  lemma RowsMatch(before: seq<Latency.Row>, after: seq<Latency.Row>, one: Arm, two: Arm, plans: seq<CasePlan>)
    requires RowsOfPlans(before, one, plans) && RowsOfPlans(after, two, plans) && Compare.DistinctRows(before)
    ensures Compare.SameCases(before, after) <==> PromptsAgree(one, two, plans)
  {
    forall i | 0 <= i < |plans|
      ensures before[i].id == after[i].id
      ensures Compare.Matches(before[i], after[i]) <==> CasePromptsAgree(one, two, plans[i])
    {
      PlansMatch(before[i], after[i], one, two, plans[i]);
    }
    SameCasesWhen(before, after);
  }

  /** The identities one job gives its two arms. */
  predicate OneJob(control: Identity, mtp: Identity) {
    && control.arm == Latency.Control && mtp.arm == Latency.Mtp && control.observation == mtp.observation
    && control.selection == mtp.selection && control.runtime == mtp.runtime && control.workload == mtp.workload
  }

  /** The series of two scored arms of one workload compare exactly when both arms counted the same
      prompt tokens, case by case: all else that a comparison asks for they have in common. */
  lemma ComparableWhen(bf16: Arm, kv4: Arm, workload: Workload, control: Identity, mtp: Identity, policy: Latency.Policy)
    requires Latency.ValidPolicy(policy) && OneJob(control, mtp)
    requires ArmScored(bf16, workload, control, policy) && ArmScored(kv4, workload, mtp, policy)
    ensures Compare.Comparable(ProductOf(bf16, workload, control, policy).series,
                               ProductOf(kv4, workload, mtp, policy).series, policy) <==>
            PromptsAgree(bf16, kv4, workload.cases)
  {
    var b, c := ProductOf(bf16, workload, control, policy).series, ProductOf(kv4, workload, mtp, policy).series;
    ArmsApart(b, c, policy);
    SeriesRows(bf16, workload, control, policy);
    SeriesRows(kv4, workload, mtp, policy);
    RowsMatch(Latency.Rows(b.cases), Latency.Rows(c.cases), bf16, kv4, workload.cases);
  }
}
