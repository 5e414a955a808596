/** From two joined arms to a benchmark report, and the check of that report.

    `hex` spells a digest as the text that latency series and bindings carry, and `pin` is the
    digest of a workload. */
module Report {
  import opened Results
  import opened Menu
  import opened Arms
  import opened ArmSeries
  import Jobs
  import Snapshot
  import Latency
  import Compare

  // ----- what a job is bound to

  datatype Binding = Binding(model: string, campaign: string, selection: string, runtime: string, workload: string,
                             selectedSourceSet: string, policy: Latency.Policy)

  /** The request of a job, its binding, and the identities of its owner, grading and observation. */
  datatype Job = Job(request: Jobs.Request, binding: Binding, seal: Jobs.Sha, quality: string, observation: string)

  datatype Owner = Owner(seal: Jobs.Sha, request: Jobs.Sha, sourceSet: Jobs.Sha)

  datatype Coverage = Coverage(complete: bool, seal: Jobs.Sha, windows: nat, ranks: seq<nat>)

  datatype Benchmark = Benchmark(success: bool, framework: string, model: string, backend: string, valid: bool,
                                 diagnosticOnly: bool, latency: Option<Latency.Record>, control: Option<Latency.Record>,
                                 comparison: Option<Compare.Comparison>, outputTokens: int, controlTokens: int,
                                 qualityPassed: bool, owner: Owner, coverage: Option<Coverage>, adoptionAuthorized: bool)

  const BACKEND := "workstation_owner"

  function IdentityOf(job: Job, arm: Latency.Arm, hex: Jobs.Sha -> string): Identity {
    Identity(job.binding.selection, job.binding.runtime, job.binding.workload,
             if arm == Latency.Control then job.binding.selectedSourceSet else hex(job.request.sourceSet),
             hex(job.seal), job.quality, job.observation, arm)
  }

  function OwnerOf(job: Job): Owner {
    Owner(job.seal, Jobs.CanonicalRequest(job.request), job.request.sourceSet)
  }

  /** The request is of this kind, in the campaign and selection of the binding. */
  predicate Admitted(job: Job, kind: Jobs.Kind, hex: Jobs.Sha -> string) {
    && job.request.kind == kind
    && hex(job.request.campaign) == job.binding.campaign && hex(job.request.selection) == job.binding.selection
  }

  /** The nonce of the observation, and the pins of grading and owner. */
  predicate Registered(job: Job, hex: Jobs.Sha -> string) {
    Latency.Hex(job.observation, 16) && Latency.Hex(job.quality, 64) && Latency.Hex(hex(job.seal), 64)
  }

  method CheckRegistered(job: Job, hex: Jobs.Sha -> string) returns (ok: bool)
    ensures ok <==> Registered(job, hex)
  {
    var nonce := Latency.IsHex(job.observation, 16);
    var quality := Latency.IsHex(job.quality, 64);
    var owner := Latency.IsHex(hex(job.seal), 64);
    ok := nonce && quality && owner;
  }

  // ----- the serving report

  const REQUESTS := 30
  const SAMPLES := 3

  /** The size of the serving workload is fixed. */
  predicate Balanced(workload: Workload) {
    !workload.diagnostic && workload.requests == REQUESTS && workload.samples == SAMPLES
  }

  predicate BothScored(bf16: Arm, kv4: Arm, workload: Workload, job: Job, hex: Jobs.Sha -> string) {
    && ArmScored(bf16, workload, IdentityOf(job, Latency.Control, hex), job.binding.policy)
    && ArmScored(kv4, workload, IdentityOf(job, Latency.Mtp, hex), job.binding.policy)
  }

  /** When a serving report is made: both arms are scored, and their series compare. */
  predicate ServingMade(bf16: Arm, kv4: Arm, workload: Workload, job: Job, hex: Jobs.Sha -> string,
                        pin: Workload -> string)
  {
    && Admitted(job, Jobs.Serving, hex) && Balanced(workload) && pin(workload) == job.binding.workload
    && Registered(job, hex) && BothScored(bf16, kv4, workload, job, hex) && PromptsAgree(bf16, kv4, workload.cases)
  }

  function ServingOf(bf16: Arm, kv4: Arm, workload: Workload, job: Job, hex: Jobs.Sha -> string): Benchmark
    requires Latency.ValidPolicy(job.binding.policy)
    requires BothScored(bf16, kv4, workload, job, hex) && PromptsAgree(bf16, kv4, workload.cases)
  {
    var control := ProductOf(bf16, workload, IdentityOf(job, Latency.Control, hex), job.binding.policy);
    var mtp := ProductOf(kv4, workload, IdentityOf(job, Latency.Mtp, hex), job.binding.policy);
    ComparableWhen(bf16, kv4, workload, IdentityOf(job, Latency.Control, hex), IdentityOf(job, Latency.Mtp, hex),
                   job.binding.policy);
    ServingBenchmark(control, mtp, Compare.Compared(control.series, mtp.series, job.binding.policy), job)
  }

  function ServingBenchmark(control: Product, mtp: Product, comparison: Compare.Comparison, job: Job): Benchmark {
    Benchmark(true, "sglang", job.binding.model, BACKEND, true, false, Some(mtp.series), Some(control.series),
              Some(comparison), mtp.tokens, control.tokens, true, OwnerOf(job), None, false)
  }

  /** The job is a registered serving job of the bound workload, which has its fixed size. */
  method CheckServing(workload: Workload, job: Job, hex: Jobs.Sha -> string, pin: Workload -> string) returns (ok: bool)
    ensures ok <==> && Admitted(job, Jobs.Serving, hex) && Balanced(workload) && pin(workload) == job.binding.workload
                    && Registered(job, hex)
  {
    if job.request.kind != Jobs.Serving || hex(job.request.campaign) != job.binding.campaign
       || hex(job.request.selection) != job.binding.selection {
      return false;
    }
    if workload.diagnostic || workload.requests != 30 || workload.samples != 3 || pin(workload) != job.binding.workload {
      return false;
    }
    ok := CheckRegistered(job, hex);
  }

  /** The serving report of one job, from the evidence of its two arms. The comparison of the two
      series is part of it, and refuses arms that counted different prompts. */
  method ServingReport(bf16: Arm, kv4: Arm, workload: Workload, job: Job, hex: Jobs.Sha -> string,
                       pin: Workload -> string) returns (report: Option<Benchmark>)
    requires Latency.ValidPolicy(job.binding.policy)
    ensures report.Some? <==> ServingMade(bf16, kv4, workload, job, hex, pin)
    ensures report.Some? ==> report.value == ServingOf(bf16, kv4, workload, job, hex)
  {
    var started := CheckServing(workload, job, hex, pin);
    if !started { return None; }
    var policy := job.binding.policy;
    var controlId, mtpId := IdentityOf(job, Latency.Control, hex), IdentityOf(job, Latency.Mtp, hex);
    var control := ScoreArm(bf16, workload, controlId, policy);
    if control.None? { return None; }
    var mtp := ScoreArm(kv4, workload, mtpId, policy);
    if mtp.None? { return None; }
    ComparableWhen(bf16, kv4, workload, controlId, mtpId, policy);
    var comparison := Compare.CompareRecords(control.value.series, mtp.value.series, policy);
    if comparison.Refused? { return None; }
    var owner := Owner(job.seal, Jobs.OfRequest(Jobs.Text(Some(job.request), 0)), job.request.sourceSet);
    report := Some(Benchmark(true, "sglang", job.binding.model, "workstation_owner", true, false,
                             Some(mtp.value.series), Some(control.value.series), Some(comparison.value),
                             mtp.value.tokens, control.value.tokens, true, owner, None, false));
  }

  // ----- the profile report

  /** What the sealed capture holds: its profiles, ranks, and the bodies of the pair it profiled. */
  datatype Capture = Capture(profiles: nat, ranks: seq<nat>, bodies: seq<string>)

  predicate GroupIs(group: Group, warmup: bool, ordinals: seq<nat>) {
    group.warmup == warmup && group.ordinals == ordinals && group.concurrency == |ordinals|
  }

  /** Two warmup groups and one measured pair. */
  predicate ProfileShape(workload: Workload) {
    && workload.diagnostic && workload.requests == 5 && workload.samples == 1 && workload.cases == []
    && |workload.groups| == 3
    && GroupIs(workload.groups[0], true, [0]) && GroupIs(workload.groups[1], true, [1, 2])
    && GroupIs(workload.groups[2], false, [3, 4])
  }

  predicate CaptureOk(capture: Capture, kv4: Arm) {
    && capture.profiles == 7 && capture.ranks == [0, 1] && |kv4.answers| == 5
    && capture.bodies == [kv4.answers[3].body, kv4.answers[4].body]
  }

  predicate ProfileMade(bf16: Arm, kv4: Arm, workload: Workload, job: Job, capture: Capture, hex: Jobs.Sha -> string) {
    && Admitted(job, Jobs.Profile, hex) && Registered(job, hex) && ProfileShape(workload)
    && ArmOk(bf16, workload) && ArmOk(kv4, workload) && CaptureOk(capture, kv4)
  }

  function ProfileOf(job: Job, capture: Capture): Benchmark {
    Benchmark(true, "sglang", job.binding.model, BACKEND, true, true, None, None, None, 0, 0, true, OwnerOf(job),
              Some(Coverage(true, job.seal, 7, capture.ranks)), false)
  }

  /** The profile report of one job: both arms join its five-request schedule, and the capture is
      complete and profiled the very pair that was graded. */
  method ProfileReport(bf16: Arm, kv4: Arm, workload: Workload, job: Job, capture: Capture, hex: Jobs.Sha -> string)
    returns (report: Option<Benchmark>)
    ensures report.Some? <==> ProfileMade(bf16, kv4, workload, job, capture, hex)
    ensures report.Some? ==> report.value == ProfileOf(job, capture)
  {
    if job.request.kind != Jobs.Profile || hex(job.request.campaign) != job.binding.campaign
       || hex(job.request.selection) != job.binding.selection {
      return None;
    }
    if !workload.diagnostic || workload.requests != 5 || workload.samples != 1 || workload.cases != [] { return None; }
    var registered := CheckRegistered(job, hex);
    if !registered || |workload.groups| != 3 { return None; }
    var planned := [(true, [0], 1), (true, [1, 2], 2), (false, [3, 4], 2)];
    var i := 0;
    while i < 3
      invariant 0 <= i <= 3
      invariant forall k :: 0 <= k < i ==>
        (workload.groups[k].warmup, workload.groups[k].ordinals, workload.groups[k].concurrency) == planned[k]
    {
      var g := workload.groups[i];
      if (g.warmup, g.ordinals, g.concurrency) != planned[i] {
        assert !ProfileShape(workload);
        return None;
      }
      i := i + 1;
    }
    var control := JoinArm(bf16, workload);
    if control.None? { return None; }
    var mtp := JoinArm(kv4, workload);
    if mtp.None? || capture.profiles != 7 || capture.ranks != [0, 1] || |capture.bodies| != 2 { return None; }
    if capture.bodies[0] != kv4.answers[3].body || capture.bodies[1] != kv4.answers[4].body { return None; }
    var owner := Owner(job.seal, Jobs.OfRequest(Jobs.Text(Some(job.request), 0)), job.request.sourceSet);
    report := Some(Benchmark(true, "sglang", job.binding.model, "workstation_owner", true, true, None, None, None, 0, 0,
                             true, owner, Some(Coverage(true, owner.seal, capture.profiles, capture.ranks)), false));
  }

  // ----- publication, and the check made before a report leaves the owner

  /** What a benchmark job's result carries. */
  datatype Payload = Payload(benchmark: Option<Benchmark>)

  type Result = Jobs.Published<Payload>

  /** A result is published under the claim of its own request, and a success with seal and release. */
  function Publish(claim: Snapshot.Claim, request: Jobs.Request, status: Jobs.Status, payload: Payload,
                   seal: Option<Jobs.Sha>, release: bool): Option<Result>
  {
    if status == Jobs.OtherStatus || claim.id != request.id || claim.request != Jobs.CanonicalRequest(request)
       || (status == Jobs.Succeeded && (seal.None? || !release)) then None
    else
      Some(Jobs.Published(1, request.id, status, Jobs.CanonicalRequest(request), request.campaign, request.config,
                          request.sourceSet, claim.controller, seal, release, false, false, Some(payload)))
  }

  /** The identities a latency series must share with the binding, and the two series with each other. */
  predicate SeriesBound(observed: Latency.Record, control: Latency.Record, request: Jobs.Request, binding: Binding,
                        seal: Jobs.Sha, hex: Jobs.Sha -> string)
  {
    && observed.selection == binding.selection && observed.runtime == binding.runtime
    && observed.workload == binding.workload
    && observed.candidate == hex(request.sourceSet) && observed.seal == hex(seal)
    && control.arm == Latency.Control && observed.arm == Latency.Mtp
    && control.candidate == binding.selectedSourceSet
    && control.selection == observed.selection && control.runtime == observed.runtime
    && control.workload == observed.workload && control.observation == observed.observation
    && control.seal == observed.seal && control.quality == observed.quality
  }

  predicate ValidReport(result: Result, request: Jobs.Request, binding: Binding, hex: Jobs.Sha -> string) {
    && result.status == Jobs.Succeeded && result.independentRelease && result.seal.Some?
    && result.payload.Some? && result.payload.value.benchmark.Some?
    && var report := result.payload.value.benchmark.value;
       && report.success && report.framework == "sglang" && report.model == binding.model
       && report.backend == BACKEND && report.valid
       && report.owner == Owner(result.seal.value, result.request, request.sourceSet)
       && report.qualityPassed && !report.adoptionAuthorized
       && if request.kind == Jobs.Serving then
            && !report.diagnosticOnly && report.latency.Some? && report.control.Some?
            && Latency.ValidSeries(report.latency.value, binding.policy)
            && Latency.ValidSeries(report.control.value, binding.policy)
            && SeriesBound(report.latency.value, report.control.value, request, binding, result.seal.value, hex)
          else
            && request.kind == Jobs.Profile && report.diagnosticOnly && report.latency.None? && report.control.None?
            && report.coverage.Some? && report.coverage.value.complete && report.coverage.value.seal == result.seal.value
  }

  /** Publication, in the order of its checks. */
  method PublishResult(claim: Snapshot.Claim, request: Jobs.Request, status: Jobs.Status, payload: Payload,
                       seal: Option<Jobs.Sha>, release: bool) returns (result: Option<Result>)
    ensures result == Publish(claim, request, status, payload, seal, release)
  {
    match status {
      case OtherStatus => return None;
      case _ =>
    }
    if claim.id != request.id || claim.request != Jobs.OfRequest(Jobs.Text(Some(request), 0)) { return None; }
    if status == Jobs.Succeeded {
      if seal.None? || !release { return None; }
    }
    result := Some(Jobs.Published(1, request.id, status, claim.request, request.campaign, request.config,
                                  request.sourceSet, claim.controller, seal, release, false, false, Some(payload)));
  }

  /** Two series of one owner: the binding's identities, and each other's. */
  method CheckSeries(observed: Latency.Record, control: Latency.Record, request: Jobs.Request, binding: Binding,
                     seal: Jobs.Sha, hex: Jobs.Sha -> string) returns (ok: bool)
    requires Latency.ValidPolicy(binding.policy)
    ensures ok <==> && Latency.ValidSeries(observed, binding.policy) && Latency.ValidSeries(control, binding.policy)
                    && SeriesBound(observed, control, request, binding, seal, hex)
  {
    hide Latency.ValidSeries;
    var one := Latency.Series(observed, binding.policy);
    var two := Latency.Series(control, binding.policy);
    if one.Refused? || two.Refused? { return false; }
    if observed.arm != Latency.Mtp || control.arm != Latency.Control { return false; }
    if [observed.selection, observed.runtime, observed.workload]
       != [binding.selection, binding.runtime, binding.workload] {
      assert [observed.selection, observed.runtime, observed.workload][0] == observed.selection;
      return false;
    }
    if observed.candidate != hex(request.sourceSet) || observed.seal != hex(seal) { return false; }
    if control.candidate != binding.selectedSourceSet { return false; }
    ok := [control.selection, control.runtime, control.workload, control.observation, control.seal, control.quality]
          == [observed.selection, observed.runtime, observed.workload, observed.observation, observed.seal, observed.quality];
  }

  /** The check of a report before it leaves the owner. */
  method CheckReport(result: Result, request: Jobs.Request, binding: Binding, hex: Jobs.Sha -> string) returns (ok: bool)
    requires Latency.ValidPolicy(binding.policy)
    ensures ok <==> ValidReport(result, request, binding, hex)
  {
    hide Latency.ValidSeries, SeriesBound;
    if result.status != Jobs.Succeeded || !result.independentRelease || result.seal.None? { return false; }
    if result.payload.None? || result.payload.value.benchmark.None? { return false; }
    var report := result.payload.value.benchmark.value;
    if !report.success || report.framework != "sglang" || report.model != binding.model { return false; }
    if report.backend != "workstation_owner" || !report.valid { return false; }
    var owner := report.owner;
    if owner.seal != result.seal.value || owner.request != result.request || owner.sourceSet != request.sourceSet {
      return false;
    }
    if !report.qualityPassed || report.adoptionAuthorized { return false; }
    if request.kind == Jobs.Serving {
      if report.diagnosticOnly || report.latency.None? || report.control.None? { return false; }
      ok := CheckSeries(report.latency.value, report.control.value, request, binding, result.seal.value, hex);
    } else {
      if request.kind != Jobs.Profile || !report.diagnosticOnly || report.latency.Some? || report.control.Some? {
        return false;
      }
      if report.coverage.None? || !report.coverage.value.complete { return false; }
      ok := report.coverage.value.seal == result.seal.value;
    }
  }

  /** The report, published as the sealed and released success of its request under that request's
      claim, is a result its waiter accepts and a report its owner lets out. */
  predicate Accepted(report: Benchmark, job: Job, claim: Snapshot.Claim, hex: Jobs.Sha -> string) {
    var result := Publish(claim, job.request, Jobs.Succeeded, Payload(Some(report)), Some(job.seal), true);
    && result.Some? && Jobs.ValidResult(result.value, job.request, claim.controller)
    && ValidReport(result.value, job.request, job.binding, hex)
  }

  lemma ServingSeries(bf16: Arm, kv4: Arm, workload: Workload, job: Job, hex: Jobs.Sha -> string)
    requires Latency.ValidPolicy(job.binding.policy)
    requires BothScored(bf16, kv4, workload, job, hex) && PromptsAgree(bf16, kv4, workload.cases)
    ensures var report := ServingOf(bf16, kv4, workload, job, hex);
            && report.latency.Some? && report.control.Some?
            && report == ServingBenchmark(Product(report.control.value, report.controlTokens, 0.0),
                                          Product(report.latency.value, report.outputTokens, 0.0),
                                          report.comparison.value, job)
            && Latency.ValidSeries(report.latency.value, job.binding.policy)
            && Latency.ValidSeries(report.control.value, job.binding.policy)
            && SeriesBound(report.latency.value, report.control.value, job.request, job.binding, job.seal, hex)
  {
  }

  lemma PublishedIsAccepted(report: Benchmark, job: Job, claim: Snapshot.Claim, hex: Jobs.Sha -> string)
    requires job.request.kind == Jobs.Serving
    requires claim.id == job.request.id && claim.request == Jobs.CanonicalRequest(job.request)
    requires report.latency.Some? && report.control.Some? && report.comparison.Some?
    requires report == ServingBenchmark(Product(report.control.value, report.controlTokens, 0.0),
                                        Product(report.latency.value, report.outputTokens, 0.0),
                                        report.comparison.value, job)
    requires Latency.ValidSeries(report.latency.value, job.binding.policy)
    requires Latency.ValidSeries(report.control.value, job.binding.policy)
    requires SeriesBound(report.latency.value, report.control.value, job.request, job.binding, job.seal, hex)
    ensures Accepted(report, job, claim, hex)
  {
  }

  lemma ServingAgrees(bf16: Arm, kv4: Arm, workload: Workload, job: Job, claim: Snapshot.Claim, hex: Jobs.Sha -> string,
                      pin: Workload -> string)
    requires Latency.ValidPolicy(job.binding.policy) && ServingMade(bf16, kv4, workload, job, hex, pin)
    requires claim.id == job.request.id && claim.request == Jobs.CanonicalRequest(job.request)
    ensures Accepted(ServingOf(bf16, kv4, workload, job, hex), job, claim, hex)
  {
    ServingSeries(bf16, kv4, workload, job, hex);
    PublishedIsAccepted(ServingOf(bf16, kv4, workload, job, hex), job, claim, hex);
  }

  lemma ProfileAgrees(bf16: Arm, kv4: Arm, workload: Workload, job: Job, capture: Capture, claim: Snapshot.Claim,
                      hex: Jobs.Sha -> string)
    requires ProfileMade(bf16, kv4, workload, job, capture, hex)
    requires claim.id == job.request.id && claim.request == Jobs.CanonicalRequest(job.request)
    ensures Accepted(ProfileOf(job, capture), job, claim, hex)
  {
  }

  /** A report is valid for one job only: the same report in another request's result is refused. */
  lemma ReportOfOneJob(one: Result, other: Result, request: Jobs.Request, another: Jobs.Request, binding: Binding,
                       hex: Jobs.Sha -> string, controller: Jobs.Sha)
    requires Jobs.ValidResult(one, request, controller) && ValidReport(one, request, binding, hex)
    requires Jobs.ValidResult(other, another, controller) && ValidReport(other, another, binding, hex)
    requires one.payload.value.benchmark == other.payload.value.benchmark
    ensures request == another && one.seal == other.seal
  {
  }
}
