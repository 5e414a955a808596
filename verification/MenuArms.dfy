/** A derived menu as a workload: an arm that executes it joins, projects, and is scored once. */
module MenuArms {
  import opened Results
  import opened Bags
  import opened Folding
  import opened Menu
  import opened MenuSchedule
  import opened Arms
  import opened ArmSeries
  import opened ArmEvidence
  import Latency

  // ----- the workload of a menu

  /** `digest` is the contract digest of a case. */
  function PlanOf(entry: Entry, digest: seq<Term> -> string): CasePlan {
    CasePlan(entry.name, entry.concurrency, digest(entry.contract), entry.samples)
  }

  function PlansOf(entries: seq<Entry>, digest: seq<Term> -> string): (plans: seq<CasePlan>)
    ensures |plans| == |entries| && forall i :: 0 <= i < |plans| ==> plans[i] == PlanOf(entries[i], digest)
  {
    if entries == [] then []
    else PlansOf(entries[..|entries| - 1], digest) + [PlanOf(entries[|entries| - 1], digest)]
  }

  /** The frozen workload; `order` lists the menu's cases in the order the report takes them. */
  function WorkloadOf(menu: State, samples: nat, order: seq<Entry>, digest: seq<Term> -> string): Workload {
    Workload(|menu.rows|, samples, false, menu.groups, PlansOf(order, digest))
  }

  /** The arm ran every group as frozen, with sound rows and accounts. */
  predicate Executes(arm: Arm, workload: Workload) {
    && RowsOk(arm, workload.requests) && |arm.groups| == |workload.groups|
    && forall i :: 0 <= i < |arm.groups| ==> Follows(arm.groups[i], workload.groups[i], arm)
  }

  // ----- it joins

  lemma {:induction false} FlatHolds(groups: seq<Group>, i: nat, o: nat)
    requires i < |groups| && o in groups[i].ordinals
    ensures o in Flat(groups)
  {
    var front, last := groups[..|groups| - 1], groups[|groups| - 1];
    if i < |front| { FlatHolds(front, i, o); }
    assert Flat(groups) == Flat(front) + last.ordinals;
  }

  /** An arm joins a derived menu exactly when it executed it: the schedule itself is always sound. */
  lemma MenuJoins(originals: seq<Source>, cases: seq<Case>, samples: nat, order: seq<Entry>,
                  digest: seq<Term> -> string, arm: Arm)
    requires Derived(originals, cases, samples).Some? && DistinctNames(cases)
    ensures var workload := WorkloadOf(Derived(originals, cases, samples).value, samples, order, digest);
            ArmOk(arm, workload) <==> Executes(arm, workload)
  {
    var menu := Derived(originals, cases, samples).value;
    var workload := WorkloadOf(menu, samples, order, digest);
    MenuCovers(originals, cases, samples);
    if RowsOk(arm, |menu.rows|) && |arm.groups| == |menu.groups| {
      forall i | 0 <= i < |arm.groups|
        ensures GroupOk(arm.groups[i], menu.groups[i], arm) <==> Follows(arm.groups[i], menu.groups[i], arm)
      {
        GroupInRange(menu.groups, |menu.rows|, i);
      }
    }
  }

  lemma GroupInRange(groups: seq<Group>, n: nat, i: nat)
    requires i < |groups| && Flat(groups) == Count(0, n)
    ensures InRange(groups[i].ordinals, n)
  {
    forall j | 0 <= j < |groups[i].ordinals| ensures groups[i].ordinals[j] < n {
      FlatHolds(groups, i, groups[i].ordinals[j]);
    }
  }

  // ----- its samples name its groups

  predicate FiledAt(s: Sample, concurrency: nat, groups: seq<Group>, i: nat) {
    && i < |groups| && groups[i].id == s.group && groups[i].ordinals == s.ordinals
    && !groups[i].warmup && groups[i].concurrency == concurrency
  }

  predicate SampleFiled(s: Sample, concurrency: nat, groups: seq<Group>) {
    exists i :: 0 <= i < |groups| && FiledAt(s, concurrency, groups, i)
  }

  predicate EntryFiled(e: Entry, groups: seq<Group>) {
    |e.contract| == e.concurrency && forall k :: 0 <= k < |e.samples| ==> SampleFiled(e.samples[k], e.concurrency, groups)
  }

  predicate AllFiled(cases: seq<Entry>, groups: seq<Group>) {
    forall i :: 0 <= i < |cases| ==> EntryFiled(cases[i], groups)
  }

  lemma EntryStaysFiled(e: Entry, groups: seq<Group>, group: Group)
    requires EntryFiled(e, groups)
    ensures EntryFiled(e, groups + [group])
  {
    forall k | 0 <= k < |e.samples| ensures SampleFiled(e.samples[k], e.concurrency, groups + [group]) {
      assert SampleFiled(e.samples[k], e.concurrency, groups);
      var i :| 0 <= i < |groups| && FiledAt(e.samples[k], e.concurrency, groups, i);
      assert FiledAt(e.samples[k], e.concurrency, groups + [group], i);
    }
  }

  lemma NewSampleFiled(groups: seq<Group>, group: Group, repetition: nat)
    requires !group.warmup
    ensures SampleFiled(Sample(group.id, group.ordinals, repetition), group.concurrency, groups + [group])
  {
    assert FiledAt(Sample(group.id, group.ordinals, repetition), group.concurrency, groups + [group], |groups|);
  }

  lemma SampledFiled(cases: seq<Entry>, groups: seq<Group>, name: string, contract: seq<Term>, group: Group, repetition: nat)
    requires AllFiled(cases, groups) && !group.warmup && |contract| == group.concurrency
    requires Sampled(cases, name, group.concurrency, contract, Sample(group.id, group.ordinals, repetition)).Some?
    ensures AllFiled(Sampled(cases, name, group.concurrency, contract, Sample(group.id, group.ordinals, repetition)).value,
                     groups + [group])
  {
    var sample := Sample(group.id, group.ordinals, repetition);
    var at, next := Find(cases, name), Sampled(cases, name, group.concurrency, contract, sample).value;
    NewSampleFiled(groups, group, repetition);
    forall i | 0 <= i < |next| ensures EntryFiled(next[i], groups + [group]) {
      if i < |cases| { EntryStaysFiled(cases[i], groups, group); }
      if i == at && at < |cases| {
        EntryGrows(cases[at], groups + [group], sample);
      }
    }
  }

  lemma EntryGrows(e: Entry, groups: seq<Group>, sample: Sample)
    requires EntryFiled(e, groups) && SampleFiled(sample, e.concurrency, groups)
    ensures EntryFiled(e.(samples := e.samples + [sample]), groups)
  {
  }

  lemma {:induction false} RunFiled(originals: seq<Source>, rounds: seq<Round>)
    requires Run(originals, rounds).Some?
    ensures var st := Run(originals, rounds).value; AllFiled(st.cases, st.groups)
  {
    if rounds != [] {
      var front, round := rounds[..|rounds| - 1], rounds[|rounds| - 1];
      RunFiled(originals, front);
      var st, next := Run(originals, front).value, Run(originals, rounds).value;
      GroupedAdds(originals, st, round);
      var group := GroupOf(originals, round, |st.rows|);
      if round.warmup {
        forall i | 0 <= i < |st.cases| ensures EntryFiled(st.cases[i], next.groups) {
          EntryStaysFiled(st.cases[i], st.groups, group);
        }
      } else {
        SampledFiled(st.cases, st.groups, round.case_.name, Terms(originals, round.case_), group, round.repetition);
      }
    }
  }

  lemma {:induction false} NamedAt(groups: seq<Executed>, i: nat)
    requires i < |groups| && forall k, l :: 0 <= k < l < |groups| ==> groups[k].id != groups[l].id
    ensures groups[i].id in Named(groups) && Named(groups)[groups[i].id] == groups[i]
  {
    if i < |groups| - 1 { NamedAt(groups[..|groups| - 1], i); }
  }

  lemma FiledIdentifies(arm: Arm, workload: Workload, plan: CasePlan, s: Sample, i: nat)
    requires ArmOk(arm, workload) && FiledAt(s, plan.concurrency, workload.groups, i)
    ensures Identifies(Named(arm.groups), plan, s, |arm.rows|)
  {
    forall k | 0 <= k < |arm.groups| ensures arm.groups[k].id == workload.groups[k].id {
      assert GroupOk(arm.groups[k], workload.groups[k], arm);
    }
    NamedAt(arm.groups, i);
    assert GroupOk(arm.groups[i], workload.groups[i], arm);
  }

  /** Where every sample is filed under a group, an arm that joins also projects. */
  lemma FiledNames(arm: Arm, workload: Workload, order: seq<Entry>, digest: seq<Term> -> string)
    requires ArmOk(arm, workload) && AllFiled(order, workload.groups) && workload.cases == PlansOf(order, digest)
    ensures AllNamed(Named(arm.groups), workload.cases, |arm.rows|)
  {
    forall c, k | 0 <= c < |order| && 0 <= k < |order[c].samples|
      ensures Identifies(Named(arm.groups), workload.cases[c], order[c].samples[k], |arm.rows|)
    {
      assert EntryFiled(order[c], workload.groups);
      var i :| 0 <= i < |workload.groups| && FiledAt(order[c].samples[k], order[c].concurrency, workload.groups, i);
      FiledIdentifies(arm, workload, workload.cases[c], order[c].samples[k], i);
    }
    forall c | 0 <= c < |order|
      ensures SamplesNamed(Named(arm.groups), workload.cases[c], workload.cases[c].samples, |arm.rows|)
    {
      assert workload.cases[c].samples == order[c].samples;
    }
  }

  lemma FiledInAnyOrder(order: seq<Entry>, cases: seq<Entry>, groups: seq<Group>)
    requires multiset(order) == multiset(cases) && AllFiled(cases, groups)
    ensures AllFiled(order, groups)
  {
    forall i | 0 <= i < |order| ensures EntryFiled(order[i], groups) {
      assert order[i] in multiset(cases);
      var j :| 0 <= j < |cases| && cases[j] == order[i];
    }
  }

  // ----- it is scored once

  lemma {:induction false} OrdinalsBag(samples: seq<Sample>)
    ensures multiset(Ordinals(samples)) == Sampling(samples)
  {
    if samples != [] {
      OrdinalsBag(samples[..|samples| - 1]);
    }
  }

  lemma MeasuredNext(plans: seq<CasePlan>, plan: CasePlan)
    ensures multiset(Measured(plans + [plan])) == multiset(Measured(plans)) + Sampling(plan.samples)
  {
    OrdinalsBag(plan.samples);
    assert (plans + [plan])[..|plans|] == plans;
  }

  lemma ScoredNext(order: seq<Entry>)
    requires order != []
    ensures Scored(order) == Scored(order[..|order| - 1]) + Sampling(order[|order| - 1].samples)
  {
    var front, last := order[..|order| - 1], order[|order| - 1];
    ScoredConcat(front, [last]);
    ScoredOne(last);
    assert order == front + [last];
  }

  lemma {:induction false} MeasuredBag(order: seq<Entry>, digest: seq<Term> -> string)
    ensures multiset(Measured(PlansOf(order, digest))) == Scored(order)
  {
    if order != [] {
      var front, last := order[..|order| - 1], order[|order| - 1];
      MeasuredBag(front, digest);
      MeasuredNext(PlansOf(front, digest), PlanOf(last, digest));
      ScoredNext(order);
    }
  }

  // ----- all together

  /** An arm that executes a derived menu joins and projects, and scores exactly the requests after
      the three warmups, each once, whatever order the report takes the cases in. */
  lemma MenuProjects(originals: seq<Source>, cases: seq<Case>, samples: nat, order: seq<Entry>,
                     digest: seq<Term> -> string, arm: Arm, id: Identity)
    requires Derived(originals, cases, samples).Some? && DistinctNames(cases)
    requires multiset(order) == multiset(Derived(originals, cases, samples).value.cases)
    requires Executes(arm, WorkloadOf(Derived(originals, cases, samples).value, samples, order, digest))
    ensures var workload := WorkloadOf(Derived(originals, cases, samples).value, samples, order, digest);
            && workload.requests >= WARMUPS && ArmOk(arm, workload)
            && Projected(arm, workload, id).Some?
            && multiset(Projected(arm, workload, id).value.measured)
               == multiset(Count(WARMUPS, workload.requests - WARMUPS))
  {
    var menu := Derived(originals, cases, samples).value;
    var workload := WorkloadOf(menu, samples, order, digest);
    MenuJoins(originals, cases, samples, order, digest, arm);
    RunFiled(originals, Rounds(cases, samples));
    FiledInAnyOrder(order, menu.cases, menu.groups);
    FiledNames(arm, workload, order, digest);
    CasesFold(arm, Named(arm.groups), id, workload.cases);
    MeasuredBag(order, digest);
    ScoredOrderFree(order, menu.cases);
    MenuScoredOnce(originals, cases, samples);
  }

  lemma ScoredWhen(arm: Arm, workload: Workload, id: Identity, policy: Latency.Policy)
    requires workload.requests >= WARMUPS && ArmOk(arm, workload) && Projected(arm, workload, id).Some?
    requires multiset(Projected(arm, workload, id).value.measured)
          == multiset(Count(WARMUPS, workload.requests - WARMUPS))
    ensures ArmScored(arm, workload, id, policy) <==> EvidenceFits(arm, workload.cases, id, policy)
  {
    SeriesValidWhen(arm, workload, id, policy);
    ScoredIs(arm, workload, id, policy, Projected(arm, workload, id).value);
  }

  lemma ScoredIs(arm: Arm, workload: Workload, id: Identity, policy: Latency.Policy, c: Carried)
    requires workload.requests >= WARMUPS && ArmOk(arm, workload) && Projected(arm, workload, id) == Some(c)
    requires multiset(c.measured) == multiset(Count(WARMUPS, workload.requests - WARMUPS))
    ensures ArmScored(arm, workload, id, policy) <==> Latency.ValidSeries(Series(c, id), policy)
  {
    hide *;
    ScoredBy(arm, workload, id, policy, c);
    ScorableIs(c, workload.requests, id, policy);
  }

  lemma ScoredBy(arm: Arm, workload: Workload, id: Identity, policy: Latency.Policy, c: Carried)
    requires workload.requests >= WARMUPS && ArmOk(arm, workload) && Projected(arm, workload, id) == Some(c)
    ensures ArmScored(arm, workload, id, policy) <==> Scorable(c, workload.requests, id, policy)
  {
    hide Scorable;
  }

  lemma ScorableIs(c: Carried, requests: nat, id: Identity, policy: Latency.Policy)
    requires requests >= WARMUPS && multiset(c.measured) == multiset(Count(WARMUPS, requests - WARMUPS))
    ensures Scorable(c, requests, id, policy) <==> Latency.ValidSeries(Series(c, id), policy)
  {
  }

  lemma ExecutedScoredWhen(originals: seq<Source>, cases: seq<Case>, samples: nat, order: seq<Entry>,
                           digest: seq<Term> -> string, arm: Arm, id: Identity, policy: Latency.Policy)
    requires Derived(originals, cases, samples).Some? && DistinctNames(cases)
    requires multiset(order) == multiset(Derived(originals, cases, samples).value.cases)
    requires Executes(arm, WorkloadOf(Derived(originals, cases, samples).value, samples, order, digest))
    ensures var workload := WorkloadOf(Derived(originals, cases, samples).value, samples, order, digest);
            ArmScored(arm, workload, id, policy) <==> EvidenceFits(arm, workload.cases, id, policy)
  {
    MenuProjects(originals, cases, samples, order, digest, arm, id);
    ScoredWhen(arm, WorkloadOf(Derived(originals, cases, samples).value, samples, order, digest), id, policy);
  }
}
