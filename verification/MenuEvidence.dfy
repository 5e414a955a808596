/** Which evidence makes an arm that executed a derived menu scored: conditions on the list of cases,
    and on the requests after the warmups one by one. */
module MenuEvidence {
  import opened Results
  import opened Bags
  import opened Menu
  import opened MenuSchedule
  import opened MenuCases
  import opened Arms
  import opened ArmSeries
  import opened ArmEvidence
  import opened MenuArms
  import Latency

  // ----- the conditions

  /** What the comparator asks of the list of cases and the number of repetitions. */
  predicate ListFits(cases: seq<Case>, samples: nat, policy: Latency.Policy) {
    && 2 <= |cases| <= 64 && 1 <= samples <= 32 && policy.minimumSamples <= samples
    && (exists i :: 0 <= i < |cases| && |cases[i].indices| == 1)
    && (exists i :: 0 <= i < |cases| && |cases[i].indices| == 2)
    && forall i :: 0 <= i < |cases| ==> CaseFits(cases[i], samples)
  }

  /** One request or a pair, and group names of at most 80 characters. */
  predicate CaseFits(case_: Case, samples: nat) {
    && case_.name != "" && (|case_.indices| == 1 || |case_.indices| == 2)
    && forall r :: 0 <= r < samples ==> |GroupId(Round(case_, r, false))| <= 80
  }

  predicate ContractFits(originals: seq<Source>, case_: Case, digest: seq<Term> -> string) {
    Indexed(originals, case_.indices) && Latency.Hex(digest(Terms(originals, case_)), 64)
  }

  predicate ContractsFit(originals: seq<Source>, cases: seq<Case>, digest: seq<Term> -> string) {
    forall i :: 0 <= i < |cases| ==> ContractFits(originals, cases[i], digest)
  }

  /** Every request after the warmups has sound counts and a response. */
  predicate RequestsMeasured(arm: Arm, n: nat) {
    forall o :: WARMUPS <= o < n ==> RequestFits(arm, o)
  }

  /** The request that stands at place `p` of a repetition. */
  function At(per: nat, repetition: nat, p: nat): nat { WARMUPS + repetition * per + p }

  predicate PromptRepeats(arm: Arm, per: nat, repetition: nat, p: nat) {
    PromptAt(arm)(At(per, repetition, p)) == PromptAt(arm)(At(per, 0, p))
  }

  /** Every repetition counts the prompt tokens of the first. */
  predicate PromptsRepeat(arm: Arm, per: nat, samples: nat) {
    forall r, p :: 0 <= r < samples && 0 <= p < per ==> PromptRepeats(arm, per, r, p)
  }

  predicate PromptsAlikeAt(one: Arm, two: Arm, o: nat) { PromptAt(one)(o) == PromptAt(two)(o) }

  /** Both arms count the same prompt tokens in the first repetition. */
  predicate PromptsAlike(one: Arm, two: Arm, per: nat) {
    forall p :: 0 <= p < per ==> PromptsAlikeAt(one, two, At(per, 0, p))
  }

  /** The evidence of one arm, request by request. */
  predicate Measures(arm: Arm, per: nat, samples: nat) {
    RequestsMeasured(arm, At(per, samples, 0)) && PromptsRepeat(arm, per, samples)
  }

  // ----- places of a repetition

  lemma {:induction false} RequestsUpTo(cases: seq<Case>, i: nat)
    requires i < |cases|
    ensures Requests(cases[..i + 1]) == Requests(cases[..i]) + |cases[i].indices| <= Requests(cases)
    decreases |cases|
  {
    var front := cases[..|cases| - 1];
    assert cases[..i + 1][..i] == cases[..i];
    if i < |front| {
      RequestsUpTo(front, i);
      assert front[..i + 1] == cases[..i + 1] && front[..i] == cases[..i];
    } else {
      assert cases[..i + 1] == cases;
    }
  }

  /** Each place belongs to one request of one case. */
  lemma {:induction false} PlaceIn(cases: seq<Case>, p: nat) returns (i: nat, j: nat)
    requires p < Requests(cases)
    ensures i < |cases| && j < |cases[i].indices| && p == Requests(cases[..i]) + j
  {
    var front := cases[..|cases| - 1];
    if p < Requests(front) {
      i, j := PlaceIn(front, p);
      assert front[..i] == cases[..i];
    } else {
      i, j := |cases| - 1, p - Requests(front);
    }
  }

  lemma Within(per: nat, r: nat, p: nat, samples: nat)
    requires r < samples && p < per
    ensures WARMUPS <= At(per, r, p) < At(per, samples, 0)
  {
    assert (r + 1) * per <= samples * per;
  }

  lemma PlaceOfRequest(per: nat, o: nat, samples: nat) returns (r: nat, p: nat)
    requires WARMUPS <= o < At(per, samples, 0)
    ensures r < samples && p < per && o == At(per, r, p)
  {
    assert per > 0;
    r, p := (o - WARMUPS) / per, (o - WARMUPS) % per;
    if samples <= r { TimesGrows(samples, r, per); }
  }

  lemma TimesGrows(m: nat, n: nat, per: nat)
    requires m <= n
    ensures m * per <= n * per
  {
  }

  /** The ordinals stand at the places from `p` of a repetition. */
  predicate StandAt(ordinals: seq<nat>, per: nat, r: nat, p: nat) {
    forall j :: 0 <= j < |ordinals| ==> ordinals[j] == At(per, r, p + j)
  }

  lemma SampleStands(cases: seq<Case>, i: nat, r: nat)
    requires i < |cases|
    ensures |SampleAt(cases, i, r).ordinals| == |cases[i].indices|
    ensures StandAt(SampleAt(cases, i, r).ordinals, Requests(cases), r, Requests(cases[..i]))
    ensures Requests(cases[..i]) + |cases[i].indices| <= Requests(cases)
  {
    RequestsUpTo(cases, i);
  }

  // ----- the requests of all samples

  lemma StretchMeasured(arm: Arm, ordinals: seq<nat>, per: nat, r: nat, p: nat, samples: nat)
    requires StandAt(ordinals, per, r, p) && p + |ordinals| <= per && r < samples
    requires RequestsMeasured(arm, At(per, samples, 0))
    ensures RequestsFit(arm, ordinals)
  {
    forall j | 0 <= j < |ordinals| ensures RequestFits(arm, ordinals[j]) {
      Within(per, r, p + j, samples);
    }
  }

  predicate CaseMeasured(arm: Arm, cases: seq<Case>, i: nat, samples: nat)
    requires i < |cases|
  {
    forall k :: 0 <= k < samples ==> RequestsFit(arm, SampleAt(cases, i, k).ordinals)
  }

  predicate AllCasesMeasured(arm: Arm, cases: seq<Case>, samples: nat) {
    forall i :: 0 <= i < |cases| ==> CaseMeasured(arm, cases, i, samples)
  }

  lemma CaseIsMeasured(arm: Arm, cases: seq<Case>, i: nat, samples: nat)
    requires i < |cases| && RequestsMeasured(arm, At(Requests(cases), samples, 0))
    ensures CaseMeasured(arm, cases, i, samples)
  {
    forall k | 0 <= k < samples ensures RequestsFit(arm, SampleAt(cases, i, k).ordinals) {
      SampleStands(cases, i, k);
      StretchMeasured(arm, SampleAt(cases, i, k).ordinals, Requests(cases), k, Requests(cases[..i]), samples);
    }
  }

  lemma RequestIsMeasured(arm: Arm, cases: seq<Case>, samples: nat, o: nat)
    requires AllCasesMeasured(arm, cases, samples) && WARMUPS <= o < At(Requests(cases), samples, 0)
    ensures RequestFits(arm, o)
  {
    var r, p := PlaceOfRequest(Requests(cases), o, samples);
    var i, j := PlaceIn(cases, p);
    SampleStands(cases, i, r);
    assert CaseMeasured(arm, cases, i, samples) && RequestsFit(arm, SampleAt(cases, i, r).ordinals);
    assert RequestFits(arm, SampleAt(cases, i, r).ordinals[j]);
  }

  /** All samples are sound exactly when every request after the warmups is. */
  lemma AllMeasuredWhen(arm: Arm, cases: seq<Case>, samples: nat)
    ensures AllCasesMeasured(arm, cases, samples) <==> RequestsMeasured(arm, At(Requests(cases), samples, 0))
  {
    if AllCasesMeasured(arm, cases, samples) {
      forall o: nat | WARMUPS <= o < At(Requests(cases), samples, 0) ensures RequestFits(arm, o) {
        RequestIsMeasured(arm, cases, samples, o);
      }
    }
    if RequestsMeasured(arm, At(Requests(cases), samples, 0)) {
      forall i | 0 <= i < |cases| ensures CaseMeasured(arm, cases, i, samples) {
        CaseIsMeasured(arm, cases, i, samples);
      }
    }
  }

  // ----- the prompt counts of all samples

  predicate SampleRepeats(arm: Arm, cases: seq<Case>, i: nat, k: nat)
    requires i < |cases|
  {
    Picked(SampleAt(cases, i, k).ordinals, PromptAt(arm)) == Picked(SampleAt(cases, i, 0).ordinals, PromptAt(arm))
  }

  predicate AllRepeat(arm: Arm, cases: seq<Case>, samples: nat) {
    forall i, k :: 0 <= i < |cases| && 0 <= k < samples ==> SampleRepeats(arm, cases, i, k)
  }

  lemma PickedAlike(one: seq<nat>, two: seq<nat>, f: nat -> int, g: nat -> int)
    requires |one| == |two|
    ensures Picked(one, f) == Picked(two, g) <==> forall j :: 0 <= j < |one| ==> f(one[j]) == g(two[j])
  {
    if Picked(one, f) == Picked(two, g) {
      forall j | 0 <= j < |one| ensures f(one[j]) == g(two[j]) { assert Picked(one, f)[j] == Picked(two, g)[j]; }
    }
  }

  predicate PlacesRepeat(arm: Arm, per: nat, k: nat, first: nat, n: nat) {
    forall p :: first <= p < first + n ==> PromptRepeats(arm, per, k, p)
  }

  lemma SampleRepeatsWhen(arm: Arm, cases: seq<Case>, i: nat, k: nat)
    requires i < |cases|
    ensures SampleRepeats(arm, cases, i, k) <==>
            PlacesRepeat(arm, Requests(cases), k, Requests(cases[..i]), |cases[i].indices|)
  {
    SampleStands(cases, i, k);
    SampleStands(cases, i, 0);
    StretchRepeatsWhen(arm, SampleAt(cases, i, k).ordinals, SampleAt(cases, i, 0).ordinals, Requests(cases), k,
                       Requests(cases[..i]));
  }

  lemma StretchRepeatsWhen(arm: Arm, one: seq<nat>, two: seq<nat>, per: nat, k: nat, first: nat)
    requires |one| == |two| && StandAt(one, per, k, first) && StandAt(two, per, 0, first)
    ensures Picked(one, PromptAt(arm)) == Picked(two, PromptAt(arm)) <==> PlacesRepeat(arm, per, k, first, |one|)
  {
    PickedAlike(one, two, PromptAt(arm), PromptAt(arm));
    if PlacesRepeat(arm, per, k, first, |one|) {
      forall j | 0 <= j < |one| ensures PromptAt(arm)(one[j]) == PromptAt(arm)(two[j]) {
        assert PromptRepeats(arm, per, k, first + j);
      }
    }
    if Picked(one, PromptAt(arm)) == Picked(two, PromptAt(arm)) {
      forall p | first <= p < first + |one| ensures PromptRepeats(arm, per, k, p) {
        assert PromptAt(arm)(one[p - first]) == PromptAt(arm)(two[p - first]);
      }
    }
  }

  lemma PlaceRepeats(arm: Arm, cases: seq<Case>, samples: nat, r: nat, p: nat)
    requires AllRepeat(arm, cases, samples) && r < samples && p < Requests(cases)
    ensures PromptRepeats(arm, Requests(cases), r, p)
  {
    var i, j := PlaceIn(cases, p);
    assert SampleRepeats(arm, cases, i, r);
    SampleRepeatsWhen(arm, cases, i, r);
  }

  lemma SampleDoesRepeat(arm: Arm, cases: seq<Case>, samples: nat, i: nat, k: nat)
    requires PromptsRepeat(arm, Requests(cases), samples) && i < |cases| && k < samples
    ensures SampleRepeats(arm, cases, i, k)
  {
    SampleRepeatsWhen(arm, cases, i, k);
    SampleStands(cases, i, k);
  }

  /** All samples repeat the prompt counts of their case exactly when every place does. */
  lemma AllRepeatWhen(arm: Arm, cases: seq<Case>, samples: nat)
    ensures AllRepeat(arm, cases, samples) <==> PromptsRepeat(arm, Requests(cases), samples)
  {
    if AllRepeat(arm, cases, samples) {
      forall r, p | 0 <= r < samples && 0 <= p < Requests(cases) ensures PromptRepeats(arm, Requests(cases), r, p) {
        PlaceRepeats(arm, cases, samples, r, p);
      }
    }
    if PromptsRepeat(arm, Requests(cases), samples) {
      forall i, k | 0 <= i < |cases| && 0 <= k < samples ensures SampleRepeats(arm, cases, i, k) {
        SampleDoesRepeat(arm, cases, samples, i, k);
      }
    }
  }

  // ----- one case

  lemma NameFitsWhen(id: Identity, group: string)
    requires IdentityFits(id)
    ensures NameFits(id, group) <==> 0 < |group| <= 80
  {
    assert |id.arm.Label()| <= 7;
  }

  /** What one plan asks, said of its case. */
  predicate PlanAsks(arm: Arm, originals: seq<Source>, cases: seq<Case>, i: nat, samples: nat, digest: seq<Term> -> string,
                     policy: Latency.Policy)
    requires i < |cases|
  {
    && CaseFits(cases[i], samples) && ContractFits(originals, cases[i], digest)
    && policy.minimumSamples <= samples <= 32
    && CaseMeasured(arm, cases, i, samples)
    && forall k :: 0 <= k < samples ==> SampleRepeats(arm, cases, i, k)
  }

  lemma PlanSampleWhen(arm: Arm, e: Entry, originals: seq<Source>, cases: seq<Case>, i: nat, samples: nat, k: nat,
                       digest: seq<Term> -> string, id: Identity)
    requires IdentityFits(id) && EntryIs(e, originals, cases, i, samples) && k < samples
    ensures SampleFitsPlan(arm, PlanOf(e, digest), k, id) <==>
            && |GroupId(Round(cases[i], k, false))| <= 80
            && RequestsFit(arm, SampleAt(cases, i, k).ordinals) && SampleRepeats(arm, cases, i, k)
  {
    assert e.samples[k] == SampleAt(cases, i, k) && e.samples[0] == SampleAt(cases, i, 0);
    NameFitsWhen(id, SampleAt(cases, i, k).group);
  }

  lemma PlanFitsWhen(arm: Arm, e: Entry, originals: seq<Source>, cases: seq<Case>, i: nat, samples: nat,
                     digest: seq<Term> -> string, id: Identity, policy: Latency.Policy)
    requires IdentityFits(id) && EntryIs(e, originals, cases, i, samples) && samples > 0
    ensures PlanFits(arm, PlanOf(e, digest), id, policy) <==> PlanAsks(arm, originals, cases, i, samples, digest, policy)
  {
    var plan := PlanOf(e, digest);
    forall k | 0 <= k < samples
      ensures SampleFitsPlan(arm, plan, k, id) <==>
              && |GroupId(Round(cases[i], k, false))| <= 80
              && RequestsFit(arm, SampleAt(cases, i, k).ordinals) && SampleRepeats(arm, cases, i, k)
    {
      PlanSampleWhen(arm, e, originals, cases, i, samples, k, digest, id);
    }
    assert |cases[i].name| < |GroupId(Round(cases[i], 0, false))|;
  }

  // ----- all cases, in whatever order

  predicate DistinctEntries(entries: seq<Entry>) {
    forall i, j :: 0 <= i < j < |entries| ==> entries[i].name != entries[j].name
  }

  lemma DistinctInAnyOrder(order: seq<Entry>, entries: seq<Entry>)
    requires multiset(order) == multiset(entries) && DistinctEntries(entries)
    ensures DistinctEntries(order)
  {
    forall i, j | 0 <= i < j < |order| ensures order[i].name != order[j].name {
      if order[i].name == order[j].name {
        var k := InBag(entries, order, i);
        var l := InBag(entries, order, j);
        assert k == l;
        TwiceIn(order, i, j);
        OnceEach(entries, order[i]);
      }
    }
  }

  /** The conditions on plans hold in one order if they hold in another. */
  lemma PlansInAnyOrder(arm: Arm, order: seq<Entry>, entries: seq<Entry>, digest: seq<Term> -> string, id: Identity,
                        policy: Latency.Policy)
    requires multiset(order) == multiset(entries)
    ensures AllFit(arm, PlansOf(entries, digest), id, policy) ==> AllFit(arm, PlansOf(order, digest), id, policy)
    ensures BothLevels(PlansOf(order, digest)) ==> BothLevels(PlansOf(entries, digest))
  {
    var plans, sorted := PlansOf(entries, digest), PlansOf(order, digest);
    if AllFit(arm, plans, id, policy) {
      forall i | 0 <= i < |order| ensures PlanFits(arm, sorted[i], id, policy) {
        var j := InBag(entries, order, i);
        assert PlanFits(arm, plans[j], id, policy);
      }
    }
    if BothLevels(sorted) {
      var i :| 0 <= i < |sorted| && sorted[i].concurrency == 1;
      var j :| 0 <= j < |sorted| && sorted[j].concurrency == 2;
      var k := InBag(entries, order, i);
      var l := InBag(entries, order, j);
      assert plans[k].concurrency == 1 && plans[l].concurrency == 2;
    }
  }

  predicate AllAsk(arm: Arm, originals: seq<Source>, cases: seq<Case>, samples: nat, digest: seq<Term> -> string,
                   policy: Latency.Policy)
  {
    forall i :: 0 <= i < |cases| ==> PlanAsks(arm, originals, cases, i, samples, digest, policy)
  }

  lemma EntriesFitWhen(arm: Arm, entries: seq<Entry>, originals: seq<Source>, cases: seq<Case>, samples: nat,
                       digest: seq<Term> -> string, id: Identity, policy: Latency.Policy)
    requires IdentityFits(id) && ListedAll(entries, originals, cases, samples) && samples > 0
    ensures AllFit(arm, PlansOf(entries, digest), id, policy) <==>
            AllAsk(arm, originals, cases, samples, digest, policy)
  {
    var plans := PlansOf(entries, digest);
    forall i | 0 <= i < |cases|
      ensures PlanFits(arm, plans[i], id, policy) <==> PlanAsks(arm, originals, cases, i, samples, digest, policy)
    {
      assert EntryIs(entries[i], originals, cases, i, samples);
      PlanFitsWhen(arm, entries[i], originals, cases, i, samples, digest, id, policy);
    }
  }

  lemma AllAskWhen(arm: Arm, originals: seq<Source>, cases: seq<Case>, samples: nat, digest: seq<Term> -> string,
                   policy: Latency.Policy)
    requires cases != []
    ensures AllAsk(arm, originals, cases, samples, digest, policy) <==>
            && (forall i :: 0 <= i < |cases| ==> CaseFits(cases[i], samples))
            && ContractsFit(originals, cases, digest) && policy.minimumSamples <= samples <= 32
            && Measures(arm, Requests(cases), samples)
  {
    AllMeasuredWhen(arm, cases, samples);
    AllRepeatWhen(arm, cases, samples);
    if AllAsk(arm, originals, cases, samples, digest, policy) {
      assert PlanAsks(arm, originals, cases, 0, samples, digest, policy);
      forall i | 0 <= i < |cases|
        ensures CaseFits(cases[i], samples) && ContractFits(originals, cases[i], digest)
        ensures CaseMeasured(arm, cases, i, samples)
        ensures forall k :: 0 <= k < samples ==> SampleRepeats(arm, cases, i, k)
      {
        assert PlanAsks(arm, originals, cases, i, samples, digest, policy);
      }
    }
  }

  lemma ListedLevels(entries: seq<Entry>, originals: seq<Source>, cases: seq<Case>, samples: nat,
                     digest: seq<Term> -> string)
    requires ListedAll(entries, originals, cases, samples) && samples > 0 && DistinctNames(cases)
    ensures DistinctEntries(entries)
    ensures BothLevels(PlansOf(entries, digest)) <==>
            && (exists i :: 0 <= i < |cases| && |cases[i].indices| == 1)
            && (exists i :: 0 <= i < |cases| && |cases[i].indices| == 2)
  {
    var plans := PlansOf(entries, digest);
    forall i | 0 <= i < |cases|
      ensures entries[i].name == cases[i].name && plans[i].concurrency == |cases[i].indices|
    {
      assert EntryIs(entries[i], originals, cases, i, samples);
    }
  }

  /** What an arm of a derived menu needs beside having executed it. */
  predicate MenuEvidenceFits(arm: Arm, originals: seq<Source>, cases: seq<Case>, samples: nat,
                             digest: seq<Term> -> string, id: Identity, policy: Latency.Policy)
  {
    && IdentityFits(id) && ListFits(cases, samples, policy) && ContractsFit(originals, cases, digest)
    && Measures(arm, Requests(cases), samples)
  }

  lemma EvidenceInAnyOrder(arm: Arm, order: seq<Entry>, entries: seq<Entry>, digest: seq<Term> -> string, id: Identity,
                           policy: Latency.Policy)
    requires multiset(order) == multiset(entries) && DistinctEntries(entries)
    ensures EvidenceFits(arm, PlansOf(order, digest), id, policy) <==>
            EvidenceFits(arm, PlansOf(entries, digest), id, policy)
  {
    SameLength(order, entries);
    DistinctInAnyOrder(order, entries);
    PlansInAnyOrder(arm, order, entries, digest, id, policy);
    PlansInAnyOrder(arm, entries, order, digest, id, policy);
  }

  lemma ListedEvidenceWhen(arm: Arm, entries: seq<Entry>, originals: seq<Source>, cases: seq<Case>, samples: nat,
                           digest: seq<Term> -> string, id: Identity, policy: Latency.Policy)
    requires ListedAll(entries, originals, cases, samples) && DistinctNames(cases) && samples > 0
    ensures EvidenceFits(arm, PlansOf(entries, digest), id, policy) <==>
            MenuEvidenceFits(arm, originals, cases, samples, digest, id, policy)
  {
    if IdentityFits(id) && 2 <= |cases| {
      ListedLevels(entries, originals, cases, samples, digest);
      EntriesFitWhen(arm, entries, originals, cases, samples, digest, id, policy);
      AllAskWhen(arm, originals, cases, samples, digest, policy);
    }
  }

  lemma EvidenceWhen(arm: Arm, order: seq<Entry>, entries: seq<Entry>, originals: seq<Source>, cases: seq<Case>,
                     samples: nat, digest: seq<Term> -> string, id: Identity, policy: Latency.Policy)
    requires ListedAll(entries, originals, cases, samples) && DistinctNames(cases)
    requires multiset(order) == multiset(entries)
    ensures EvidenceFits(arm, PlansOf(order, digest), id, policy) <==>
            MenuEvidenceFits(arm, originals, cases, samples, digest, id, policy)
  {
    if samples > 0 {
      ListedLevels(entries, originals, cases, samples, digest);
      EvidenceInAnyOrder(arm, order, entries, digest, id, policy);
      ListedEvidenceWhen(arm, entries, originals, cases, samples, digest, id, policy);
    } else {
      SameLength(order, entries);
    }
  }

  /** An arm that executed a derived menu becomes a series exactly when the list of cases is one the
      comparator scores, every request after the warmups has sound counts and a response, and every
      repetition counts the prompt tokens of the first. */
  lemma MenuScoredWhen(originals: seq<Source>, cases: seq<Case>, samples: nat, order: seq<Entry>,
                       digest: seq<Term> -> string, arm: Arm, id: Identity, policy: Latency.Policy)
    requires Derived(originals, cases, samples).Some? && DistinctNames(cases)
    requires multiset(order) == multiset(Derived(originals, cases, samples).value.cases)
    requires Executes(arm, WorkloadOf(Derived(originals, cases, samples).value, samples, order, digest))
    ensures var workload := WorkloadOf(Derived(originals, cases, samples).value, samples, order, digest);
            ArmScored(arm, workload, id, policy) <==>
            MenuEvidenceFits(arm, originals, cases, samples, digest, id, policy)
  {
    ExecutedScoredWhen(originals, cases, samples, order, digest, arm, id, policy);
    MenuLists(originals, cases, samples);
    EvidenceWhen(arm, order, Derived(originals, cases, samples).value.cases, originals, cases, samples, digest, id, policy);
  }

  // ----- two arms

  lemma PlanPromptsAgreeWhen(one: Arm, two: Arm, e: Entry, originals: seq<Source>, cases: seq<Case>, i: nat, samples: nat,
                             digest: seq<Term> -> string)
    requires EntryIs(e, originals, cases, i, samples) && samples > 0
    ensures CasePromptsAgree(one, two, PlanOf(e, digest)) <==>
            PlacesAlike(one, two, Requests(cases), Requests(cases[..i]), |cases[i].indices|)
  {
    SampleStands(cases, i, 0);
    assert e.samples[0] == SampleAt(cases, i, 0);
    StretchAlikeWhen(one, two, SampleAt(cases, i, 0).ordinals, Requests(cases), Requests(cases[..i]));
  }

  predicate PlacesAlike(one: Arm, two: Arm, per: nat, first: nat, n: nat) {
    forall p :: first <= p < first + n ==> PromptsAlikeAt(one, two, At(per, 0, p))
  }

  lemma StretchAlikeWhen(one: Arm, two: Arm, ordinals: seq<nat>, per: nat, first: nat)
    requires StandAt(ordinals, per, 0, first)
    ensures Picked(ordinals, PromptAt(one)) == Picked(ordinals, PromptAt(two)) <==>
            PlacesAlike(one, two, per, first, |ordinals|)
  {
    PickedAlike(ordinals, ordinals, PromptAt(one), PromptAt(two));
    if PlacesAlike(one, two, per, first, |ordinals|) {
      forall j | 0 <= j < |ordinals| ensures PromptAt(one)(ordinals[j]) == PromptAt(two)(ordinals[j]) {
        assert PromptsAlikeAt(one, two, At(per, 0, first + j));
      }
    }
    if Picked(ordinals, PromptAt(one)) == Picked(ordinals, PromptAt(two)) {
      forall p | first <= p < first + |ordinals| ensures PromptsAlikeAt(one, two, At(per, 0, p)) {
        assert PromptAt(one)(ordinals[p - first]) == PromptAt(two)(ordinals[p - first]);
      }
    }
  }

  lemma AgreeInAnyOrder(one: Arm, two: Arm, order: seq<Entry>, entries: seq<Entry>, digest: seq<Term> -> string)
    requires multiset(order) == multiset(entries) && PromptsAgree(one, two, PlansOf(entries, digest))
    ensures PromptsAgree(one, two, PlansOf(order, digest))
  {
    forall i | 0 <= i < |order| ensures CasePromptsAgree(one, two, PlansOf(order, digest)[i]) {
      var j := InBag(entries, order, i);
      assert CasePromptsAgree(one, two, PlansOf(entries, digest)[j]);
    }
  }

  lemma ListedAgreeWhen(one: Arm, two: Arm, entries: seq<Entry>, originals: seq<Source>, cases: seq<Case>, samples: nat,
                        digest: seq<Term> -> string)
    requires ListedAll(entries, originals, cases, samples) && samples > 0
    ensures PromptsAgree(one, two, PlansOf(entries, digest)) <==> PromptsAlike(one, two, Requests(cases))
  {
    var plans := PlansOf(entries, digest);
    forall i | 0 <= i < |cases|
      ensures CasePromptsAgree(one, two, plans[i]) <==>
              PlacesAlike(one, two, Requests(cases), Requests(cases[..i]), |cases[i].indices|)
    {
      assert EntryIs(entries[i], originals, cases, i, samples);
      PlanPromptsAgreeWhen(one, two, entries[i], originals, cases, i, samples, digest);
      SampleStands(cases, i, 0);
    }
    if PromptsAgree(one, two, plans) {
      forall p | 0 <= p < Requests(cases) ensures PromptsAlikeAt(one, two, At(Requests(cases), 0, p)) {
        var i, j := PlaceIn(cases, p);
        assert CasePromptsAgree(one, two, plans[i]);
      }
    }
    if PromptsAlike(one, two, Requests(cases)) {
      forall i | 0 <= i < |cases|
        ensures PlacesAlike(one, two, Requests(cases), Requests(cases[..i]), |cases[i].indices|)
      {
        SampleStands(cases, i, 0);
      }
    }
  }

  /** Two arms of a derived menu agree on the prompts of every case exactly when they count the same
      prompt tokens for each request of the first repetition. */
  lemma MenuPromptsWhen(originals: seq<Source>, cases: seq<Case>, samples: nat, order: seq<Entry>,
                        digest: seq<Term> -> string, one: Arm, two: Arm)
    requires Derived(originals, cases, samples).Some? && DistinctNames(cases) && samples > 0
    requires multiset(order) == multiset(Derived(originals, cases, samples).value.cases)
    ensures PromptsAgree(one, two, PlansOf(order, digest)) <==> PromptsAlike(one, two, Requests(cases))
  {
    var entries := Derived(originals, cases, samples).value.cases;
    MenuLists(originals, cases, samples);
    ListedAgreeWhen(one, two, entries, originals, cases, samples, digest);
    if PromptsAgree(one, two, PlansOf(order, digest)) { AgreeInAnyOrder(one, two, entries, order, digest); }
    if PromptsAgree(one, two, PlansOf(entries, digest)) { AgreeInAnyOrder(one, two, order, entries, digest); }
  }
}
