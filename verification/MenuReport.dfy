/** Producer and validator, end to end: from a derived menu and the evidence of two arms that executed
    it to a published result that its waiter and its owner accept. */
module MenuReport {
  import opened Results
  import opened Menu
  import opened MenuSchedule
  import opened Arms
  import opened ArmSeries
  import opened ArmEvidence
  import opened MenuArms
  import opened MenuEvidence
  import opened Report
  import Jobs
  import Snapshot
  import Latency

  /** The job is the serving job of this workload, its identities are well formed, and the list of
      cases is one its policy can score. */
  predicate JobFits(originals: seq<Source>, cases: seq<Case>, samples: nat, digest: seq<Term> -> string,
                    workload: Workload, job: Job, hex: Jobs.Sha -> string, pin: Workload -> string)
  {
    && Admitted(job, Jobs.Serving, hex) && Balanced(workload) && pin(workload) == job.binding.workload
    && IdentityFits(IdentityOf(job, Latency.Control, hex)) && IdentityFits(IdentityOf(job, Latency.Mtp, hex))
    && ListFits(cases, samples, job.binding.policy) && ContractsFit(originals, cases, digest)
  }

  /** One arm ran the frozen groups, and its requests after the warmups are measured. */
  predicate Sound(arm: Arm, workload: Workload, per: nat) {
    Executes(arm, workload) && Measures(arm, per, workload.samples)
  }

  lemma SoundIsScored(originals: seq<Source>, cases: seq<Case>, samples: nat, order: seq<Entry>,
                      digest: seq<Term> -> string, arm: Arm, id: Identity, policy: Latency.Policy)
    requires Derived(originals, cases, samples).Some? && DistinctNames(cases)
    requires multiset(order) == multiset(Derived(originals, cases, samples).value.cases)
    ensures var workload := WorkloadOf(Derived(originals, cases, samples).value, samples, order, digest);
            ArmScored(arm, workload, id, policy) <==>
            && Sound(arm, workload, Requests(cases)) && IdentityFits(id) && ListFits(cases, samples, policy)
            && ContractsFit(originals, cases, digest)
  {
    MenuJoins(originals, cases, samples, order, digest, arm);
    if Executes(arm, WorkloadOf(Derived(originals, cases, samples).value, samples, order, digest)) {
      MenuScoredWhen(originals, cases, samples, order, digest, arm, id, policy);
    }
  }

  /** A serving report of a derived menu is made exactly when the job fits the menu, both arms executed
      and measured it, and both counted the same prompt tokens in the first repetition. */
  lemma MenuServesWhen(originals: seq<Source>, cases: seq<Case>, samples: nat, order: seq<Entry>,
                       digest: seq<Term> -> string, bf16: Arm, kv4: Arm, job: Job, hex: Jobs.Sha -> string,
                       pin: Workload -> string)
    requires Derived(originals, cases, samples).Some? && DistinctNames(cases)
    requires multiset(order) == multiset(Derived(originals, cases, samples).value.cases)
    ensures var workload := WorkloadOf(Derived(originals, cases, samples).value, samples, order, digest);
            ServingMade(bf16, kv4, workload, job, hex, pin) <==>
            && JobFits(originals, cases, samples, digest, workload, job, hex, pin)
            && Sound(bf16, workload, Requests(cases)) && Sound(kv4, workload, Requests(cases))
            && PromptsAlike(bf16, kv4, Requests(cases))
  {
    var policy := job.binding.policy;
    SoundIsScored(originals, cases, samples, order, digest, bf16, IdentityOf(job, Latency.Control, hex), policy);
    SoundIsScored(originals, cases, samples, order, digest, kv4, IdentityOf(job, Latency.Mtp, hex), policy);
    if samples > 0 { MenuPromptsWhen(originals, cases, samples, order, digest, bf16, kv4); }
  }

  /** The report is made and accepted: published under the claim of its own request it passes the
      result check and the report check, and its output tokens are those of exactly the requests after
      the warmups. */
  predicate MadeAndAccepted(bf16: Arm, kv4: Arm, workload: Workload, job: Job, claim: Snapshot.Claim,
                            hex: Jobs.Sha -> string)
  {
    && Latency.ValidPolicy(job.binding.policy) && BothScored(bf16, kv4, workload, job, hex)
    && PromptsAgree(bf16, kv4, workload.cases) && workload.requests >= WARMUPS
    && var report := ServingOf(bf16, kv4, workload, job, hex);
       && Accepted(report, job, claim, hex)
       && report.outputTokens == Outputs(kv4.answers, Count(WARMUPS, workload.requests - WARMUPS))
       && report.controlTokens == Outputs(bf16.answers, Count(WARMUPS, workload.requests - WARMUPS))
  }

  lemma ServingTokens(bf16: Arm, kv4: Arm, workload: Workload, job: Job, hex: Jobs.Sha -> string)
    requires Latency.ValidPolicy(job.binding.policy)
    requires BothScored(bf16, kv4, workload, job, hex) && PromptsAgree(bf16, kv4, workload.cases)
    ensures workload.requests >= WARMUPS
    ensures var report := ServingOf(bf16, kv4, workload, job, hex);
            && report.outputTokens == Outputs(kv4.answers, Count(WARMUPS, workload.requests - WARMUPS))
            && report.controlTokens == Outputs(bf16.answers, Count(WARMUPS, workload.requests - WARMUPS))
  {
    TokensConserved(bf16, workload, IdentityOf(job, Latency.Control, hex), job.binding.policy);
    TokensConserved(kv4, workload, IdentityOf(job, Latency.Mtp, hex), job.binding.policy);
  }

  lemma MadeIsAccepted(bf16: Arm, kv4: Arm, workload: Workload, job: Job, claim: Snapshot.Claim,
                       hex: Jobs.Sha -> string, pin: Workload -> string)
    requires Latency.ValidPolicy(job.binding.policy) && ServingMade(bf16, kv4, workload, job, hex, pin)
    requires claim.id == job.request.id && claim.request == Jobs.CanonicalRequest(job.request)
    ensures MadeAndAccepted(bf16, kv4, workload, job, claim, hex)
  {
    ServingAgrees(bf16, kv4, workload, job, claim, hex, pin);
    ServingTokens(bf16, kv4, workload, job, hex);
  }

  /** Producer and validator agree, end to end: from a derived menu that both arms executed and
      measured, with the same prompt tokens, comes a report, and the report is accepted. */
  lemma MenuReportAccepted(originals: seq<Source>, cases: seq<Case>, samples: nat, order: seq<Entry>,
                           digest: seq<Term> -> string, bf16: Arm, kv4: Arm, job: Job, claim: Snapshot.Claim,
                           hex: Jobs.Sha -> string, pin: Workload -> string)
    requires Derived(originals, cases, samples).Some? && DistinctNames(cases)
    requires multiset(order) == multiset(Derived(originals, cases, samples).value.cases)
    requires Latency.ValidPolicy(job.binding.policy)
    requires claim.id == job.request.id && claim.request == Jobs.CanonicalRequest(job.request)
    requires var workload := WorkloadOf(Derived(originals, cases, samples).value, samples, order, digest);
             && JobFits(originals, cases, samples, digest, workload, job, hex, pin)
             && Sound(bf16, workload, Requests(cases)) && Sound(kv4, workload, Requests(cases))
             && PromptsAlike(bf16, kv4, Requests(cases))
    ensures MadeAndAccepted(bf16, kv4, WorkloadOf(Derived(originals, cases, samples).value, samples, order, digest), job, claim,
                            hex)
  {
    MenuServesWhen(originals, cases, samples, order, digest, bf16, kv4, job, hex, pin);
    MadeIsAccepted(bf16, kv4, WorkloadOf(Derived(originals, cases, samples).value, samples, order, digest), job, claim, hex, pin);
  }
}
