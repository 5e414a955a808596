/** Quiesce, journal and capture: the service backup and the cluster around it, step by step.

    Between any two steps of the capture, pods and containers come and go, other actors edit any
    deployment in any way, and the host may die. No container starts without a pod. */
module Backup {
  import opened Results

  type Name = string

  datatype Deployment = Deployment(uid: nat, version: nat, replicas: nat, pods: nat)

  /** What the journal keeps of one deployment. */
  datatype Entry = Entry(uid: nat, replicas: nat)

  /** journal.json is truncated first and written after: in between it holds nothing. */
  datatype JournalFile = Torn | Holds(deployments: map<Name, Entry>)

  datatype Stage =
    | Fetch | Truncate | Fill | Scale | Drain
    | DumpDatabase | DumpRoles
    | PodsGone | ContainersGone
    | Archive(next: nat)
    | StopServer | CheckServer | CopySqlite
    | FinalTruncate | FinalFill | Finished | Failed

  datatype Plan = Plan(writers: seq<Name>, full: bool, planned: map<Name, Entry>, volumes: seq<Name>) {
    /** Every deployment the capture scales down, the database last. */
    function Targets(): seq<Name> {
      writers + if full then [DATABASE] else []
    }
  }

  const DATABASE: Name := "gateway-postgres"

  /** What the capture writes: two dumps of the database, an archive of a volume, the stopped server. */
  datatype Part = Dump | Roles | Volume(name: Name) | Server

  /** `scaled` remembers, for each deployment the capture scaled down, what it was just before, and
      `taken` what was captured, in order. */
  datatype World = World(deployments: map<Name, Deployment>, containers: nat, serverActive: bool,
                         file: JournalFile, journal: map<Name, Entry>, scaled: map<Name, Entry>,
                         stage: Stage, at: nat, document: Deployment, taken: seq<Part>)

  datatype Step =
    | Work(giveUp: bool)
    | PodExit(name: Name)
    | PodStart(name: Name)
    | ContainerExit
    | ContainerStart
    | Edit(name: Name, deployment: Deployment)
    | Crash

  function StageAt(plan: Plan, at: nat): Stage {
    if at == |plan.writers| && plan.full then DumpDatabase
    else if at < |plan.Targets()| then Fetch
    else PodsGone
  }

  function Initial(plan: Plan, deployments: map<Name, Deployment>, containers: nat): World {
    World(deployments, containers, true, Holds(plan.planned), plan.planned, map[], StageAt(plan, 0), 0,
          Deployment(0, 0, 0, 0), [])
  }

  predicate NoPods(w: World) {
    forall n :: n in w.deployments ==> w.deployments[n].pods == 0
  }

  function FetchStep(w: World, name: Name): World {
    if name !in w.deployments || w.deployments[name].replicas > 1 then w.(stage := Failed)
    else
      var d := w.deployments[name];
      if name in w.journal && w.journal[name].uid != d.uid then w.(stage := Failed)
      else w.(document := d, stage := Truncate,
              journal := if name in w.journal then w.journal else w.journal[name := Entry(d.uid, d.replicas)])
  }

  /** The guarded scale: it takes effect only on the very version that was read. */
  function ScaleStep(w: World, name: Name): World {
    if name !in w.deployments || w.deployments[name].version != w.document.version
       || w.deployments[name].uid != w.document.uid || w.deployments[name].replicas != w.document.replicas
    then w.(stage := Failed)
    else
      var d := w.deployments[name];
      w.(deployments := w.deployments[name := d.(replicas := 0, version := d.version + 1)], stage := Drain,
         scaled := if name in w.scaled then w.scaled else w.scaled[name := Entry(d.uid, d.replicas)])
  }

  function DrainStep(w: World, name: Name, plan: Plan): World {
    if name in w.deployments && w.deployments[name].pods > 0 then w
    else w.(at := w.at + 1, stage := if w.at + 1 == |plan.Targets()| then PodsGone else StageAt(plan, w.at + 1))
  }

  /** Work on the deployment at hand, or the dumps that come before the last one. */
  function TargetStep(w: World, name: Name, plan: Plan): World {
    match w.stage
    case Fetch => FetchStep(w, name)
    case Truncate => w.(file := Torn, stage := Fill)
    case Fill => w.(file := Holds(w.journal), stage := Scale)
    case Scale => ScaleStep(w, name)
    case Drain => DrainStep(w, name, plan)
    case DumpDatabase =>
      if name in w.deployments && w.deployments[name].pods == 1
      then w.(stage := DumpRoles, taken := w.taken + [Dump]) else w.(stage := Failed)
    case DumpRoles => w.(stage := Fetch, taken := w.taken + [Roles])
    case _ => w
  }

  /** The volumes are archived one by one, all but the database's own, which was dumped. */
  function ArchiveStep(w: World, next: nat, plan: Plan): World {
    if next >= |plan.volumes| then w.(stage := StopServer)
    else if plan.volumes[next] == DATABASE then w.(stage := Archive(next + 1))
    else w.(stage := Archive(next + 1), taken := w.taken + [Volume(plan.volumes[next])])
  }

  /** Work once every target is down: wait, check, archive, stop the server, copy, journal. */
  function CaptureStep(w: World, plan: Plan): World {
    match w.stage
    case PodsGone => if NoPods(w) then w.(stage := ContainersGone) else w
    case ContainersGone => if w.containers == 0 then w.(stage := Archive(0)) else w.(stage := Failed)
    case Archive(next) => ArchiveStep(w, next, plan)
    case StopServer => w.(serverActive := false, stage := CheckServer)
    case CheckServer => if w.serverActive then w.(stage := Failed) else w.(stage := CopySqlite)
    case CopySqlite => w.(stage := FinalTruncate, taken := w.taken + [Server])
    case FinalTruncate => w.(file := Torn, stage := FinalFill)
    case FinalFill => w.(file := Holds(w.journal), stage := Finished)
    case _ => w
  }

  /** One step of the capture itself. `giveUp` is a passed deadline or a failed command. */
  function WorkStep(w: World, giveUp: bool, plan: Plan): World {
    if w.stage.Finished? then w
    else if giveUp then w.(stage := Failed)
    else if w.at < |plan.Targets()| then TargetStep(w, plan.Targets()[w.at], plan)
    else CaptureStep(w, plan)
  }

  function Apply(w: World, step: Step, plan: Plan): World {
    match step
    case Work(giveUp) => WorkStep(w, giveUp, plan)
    case PodExit(n) =>
      if n in w.deployments && w.deployments[n].pods > 0
      then w.(deployments := w.deployments[n := w.deployments[n].(pods := w.deployments[n].pods - 1)]) else w
    case PodStart(n) =>
      if n in w.deployments && w.deployments[n].pods < w.deployments[n].replicas
      then w.(deployments := w.deployments[n := w.deployments[n].(pods := w.deployments[n].pods + 1)]) else w
    case ContainerExit => if w.containers > 0 then w.(containers := w.containers - 1) else w
    case ContainerStart => if NoPods(w) then w else w.(containers := w.containers + 1)
    case Edit(n, d) => w.(deployments := w.deployments[n := d])
    case Crash => if w.stage.Finished? then w else w.(stage := Failed)
  }

  function Exec(w: World, steps: seq<Step>, plan: Plan): World
    decreases |steps|
  {
    if steps == [] then w else Apply(Exec(w, steps[..|steps| - 1], plan), steps[|steps| - 1], plan)
  }

  // ----- the invariant

  /** The entry that lets an owner resume a deployment: the identity that was scaled, with the
      replica count it had before the capture, or before the maintenance switch if it was planned. */
  predicate Resumable(name: Name, m: map<Name, Entry>, original: Entry, planned: map<Name, Entry>) {
    && name in m && m[name].uid == original.uid
    && (if name in planned then m[name] == planned[name] else m[name] == original)
  }

  predicate AllResumable(m: map<Name, Entry>, w: World, plan: Plan) {
    forall n :: n in w.scaled ==> Resumable(n, m, w.scaled[n], plan.planned)
  }

  /** The promise: whatever has been scaled down can be found again in the journal on disk. */
  predicate JournalComplete(w: World, plan: Plan) {
    w.scaled != map[] ==> w.file.Holds? && AllResumable(w.file.deployments, w, plan)
  }

  predicate MidTarget(s: Stage) {
    s.Truncate? || s.Fill? || s.Scale?
  }

  predicate ForTarget(s: Stage) {
    s.Fetch? || MidTarget(s) || s.Drain? || s.DumpDatabase? || s.DumpRoles?
  }

  /** Every target that was passed has been scaled down. */
  predicate ProgressInv(w: World, targets: seq<Name>) {
    && w.at <= |targets|
    && (forall k :: 0 <= k < w.at ==> targets[k] in w.scaled)
    && (w.stage.Drain? && w.at < |targets| ==> targets[w.at] in w.scaled)
  }

  /** The journal in memory covers everything scaled down, and so does the file unless it is torn. */
  predicate JournalInv(w: World, targets: seq<Name>, plan: Plan) {
    && (forall n :: n in plan.planned ==> n in w.journal && w.journal[n] == plan.planned[n])
    && AllResumable(w.journal, w, plan)
    && (w.file.Holds? ==> AllResumable(w.file.deployments, w, plan))
    && (w.stage.Scale? ==> w.file == Holds(w.journal))
    && (!w.stage.Failed? && !MidTarget(w.stage) ==>
          forall n :: n in w.journal ==> n in plan.planned || n in w.scaled)
    && (MidTarget(w.stage) && w.at < |targets| ==>
          && (forall n :: n in w.journal ==> n in plan.planned || n in w.scaled || n == targets[w.at])
          && targets[w.at] in w.journal && w.journal[targets[w.at]].uid == w.document.uid
          && (targets[w.at] !in plan.planned && targets[w.at] !in w.scaled
              ==> w.journal[targets[w.at]] == Entry(w.document.uid, w.document.replicas)))
  }

  /** Where the capture can be. */
  predicate StageInv(w: World, targets: seq<Name>, plan: Plan) {
    && w.at <= |targets|
    && (ForTarget(w.stage) ==> w.at < |targets|)
    && (w.stage.DumpDatabase? || w.stage.DumpRoles? ==> w.at == |plan.writers| && plan.full)
    && (!w.stage.Failed? && !ForTarget(w.stage) ==> w.at == |targets|)
    && (w.stage.CopySqlite? || w.stage.FinalTruncate? || w.stage.FinalFill? || w.stage.Finished? ==> !w.serverActive)
  }

  predicate Inv(w: World, plan: Plan) {
    var targets := plan.Targets();
    ProgressInv(w, targets) && JournalInv(w, targets, plan) && StageInv(w, targets, plan)
  }

  predicate Captured(s: Stage) {
    s.Archive? || s.StopServer? || s.CheckServer? || s.CopySqlite? || s.FinalTruncate? || s.FinalFill? || s.Finished?
  }

  // ----- the steps keep the journal

  lemma FetchKeeps(w: World, targets: seq<Name>, plan: Plan)
    requires JournalInv(w, targets, plan) && w.stage.Fetch? && w.at < |targets|
    ensures JournalInv(FetchStep(w, targets[w.at]), targets, plan)
  {
  }

  lemma ScaleKeeps(w: World, targets: seq<Name>, plan: Plan)
    requires JournalInv(w, targets, plan) && w.stage.Scale? && w.at < |targets|
    ensures JournalInv(ScaleStep(w, targets[w.at]), targets, plan)
  {
  }

  lemma DrainKeeps(w: World, targets: seq<Name>, plan: Plan)
    requires JournalInv(w, targets, plan) && w.stage.Drain? && w.at < |targets|
    ensures JournalInv(DrainStep(w, targets[w.at], plan), targets, plan)
  {
  }

  lemma WriteKeeps(w: World, targets: seq<Name>, plan: Plan)
    requires JournalInv(w, targets, plan) && w.at < |targets|
    requires w.stage.Truncate? || w.stage.Fill?
    ensures JournalInv(TargetStep(w, targets[w.at], plan), targets, plan)
  {
  }

  lemma DumpKeeps(w: World, targets: seq<Name>, plan: Plan)
    requires JournalInv(w, targets, plan) && w.at < |targets|
    requires w.stage.DumpDatabase? || w.stage.DumpRoles?
    ensures JournalInv(TargetStep(w, targets[w.at], plan), targets, plan)
  {
  }

  lemma TargetKeeps(w: World, targets: seq<Name>, plan: Plan)
    requires JournalInv(w, targets, plan) && w.at < |targets|
    ensures JournalInv(TargetStep(w, targets[w.at], plan), targets, plan)
  {
    if w.stage.Fetch? {
      FetchKeeps(w, targets, plan);
      assert TargetStep(w, targets[w.at], plan) == FetchStep(w, targets[w.at]);
    } else if w.stage.Scale? {
      ScaleKeeps(w, targets, plan);
      assert TargetStep(w, targets[w.at], plan) == ScaleStep(w, targets[w.at]);
    } else if w.stage.Drain? {
      DrainKeeps(w, targets, plan);
      assert TargetStep(w, targets[w.at], plan) == DrainStep(w, targets[w.at], plan);
    } else if w.stage.Truncate? || w.stage.Fill? {
      WriteKeeps(w, targets, plan);
    } else if w.stage.DumpDatabase? || w.stage.DumpRoles? {
      DumpKeeps(w, targets, plan);
    } else {
      assert TargetStep(w, targets[w.at], plan) == w;
    }
  }

  lemma TargetProgress(w: World, targets: seq<Name>, plan: Plan)
    requires ProgressInv(w, targets) && w.at < |targets|
    ensures ProgressInv(TargetStep(w, targets[w.at], plan), targets)
    ensures w.scaled.Keys <= TargetStep(w, targets[w.at], plan).scaled.Keys
  {
    match w.stage
    case Fetch => assert FetchStep(w, targets[w.at]).scaled == w.scaled;
    case Scale => assert w.scaled.Keys <= ScaleStep(w, targets[w.at]).scaled.Keys;
    case Drain => assert DrainStep(w, targets[w.at], plan).scaled == w.scaled;
    case _ =>
  }

  /** What a capture step leaves alone. */
  predicate CaptureLeaves(w: World, w': World) {
    && w'.deployments == w.deployments && w'.containers == w.containers
    && w'.journal == w.journal && w'.scaled == w.scaled && w'.at == w.at
    && !ForTarget(w'.stage) && (w.stage.Failed? ==> w'.stage.Failed?)
    && (w'.file == w.file || w'.file == Holds(w'.journal) || w'.file.Torn?)
  }

  lemma CaptureMoves(w: World, plan: Plan)
    requires !ForTarget(w.stage)
    ensures CaptureLeaves(w, CaptureStep(w, plan))
  {
    hide NoPods;
    match w.stage
    case PodsGone =>
    case ContainersGone =>
    case Archive(next) =>
    case StopServer =>
    case CheckServer =>
    case CopySqlite =>
    case _ =>
  }

  lemma CaptureKeeps(w: World, targets: seq<Name>, plan: Plan)
    requires ProgressInv(w, targets) && JournalInv(w, targets, plan) && !ForTarget(w.stage)
    ensures ProgressInv(CaptureStep(w, plan), targets) && JournalInv(CaptureStep(w, plan), targets, plan)
  {
    CaptureMoves(w, plan);
    LeavesKeeps(w, CaptureStep(w, plan), targets, plan);
  }

  lemma LeavesKeeps(w: World, w': World, targets: seq<Name>, plan: Plan)
    requires ProgressInv(w, targets) && JournalInv(w, targets, plan) && !ForTarget(w.stage) && CaptureLeaves(w, w')
    ensures ProgressInv(w', targets) && JournalInv(w', targets, plan)
  {
  }

  lemma TargetStays(w: World, targets: seq<Name>, plan: Plan)
    requires StageInv(w, targets, plan) && w.at < |targets| && targets == plan.Targets()
    ensures StageInv(TargetStep(w, targets[w.at], plan), targets, plan)
  {
    match w.stage
    case Fetch => assert FetchStep(w, targets[w.at]).at == w.at;
    case Drain =>
      var w' := DrainStep(w, targets[w.at], plan);
      assert w'.at == w.at || w'.at == w.at + 1;
    case _ =>
  }

  lemma CaptureStays(w: World, targets: seq<Name>, plan: Plan)
    requires StageInv(w, targets, plan) && w.at == |targets|
    ensures StageInv(CaptureStep(w, plan), targets, plan)
  {
  }

  /** What the surroundings leave alone: all but the cluster, unless the host dies. */
  predicate Around(w: World, w': World) {
    && w'.serverActive == w.serverActive && w'.file == w.file && w'.journal == w.journal && w'.scaled == w.scaled
    && w'.at == w.at && w'.document == w.document && w'.taken == w.taken
    && (w'.stage == w.stage || (w'.stage.Failed? && !w.stage.Finished?))
  }

  lemma OtherSteps(w: World, step: Step, plan: Plan)
    requires !step.Work?
    ensures Around(w, Apply(w, step, plan)) && (step.Edit? ==> Apply(w, step, plan).stage == w.stage)
  {
  }

  lemma AroundKeeps(w: World, w': World, plan: Plan)
    requires Inv(w, plan) && Around(w, w')
    ensures Inv(w', plan)
  {
  }

  lemma InvStep(w: World, step: Step, plan: Plan)
    requires Inv(w, plan)
    ensures Inv(Apply(w, step, plan), plan)
  {
    var targets := plan.Targets();
    if !step.Work? {
      OtherSteps(w, step, plan);
      AroundKeeps(w, Apply(w, step, plan), plan);
    } else if w.stage.Finished? {
    } else if step.giveUp {
      AroundKeeps(w, w.(stage := Failed), plan);
    } else if w.at < |targets| {
      TargetKeeps(w, targets, plan);
      TargetProgress(w, targets, plan);
      TargetStays(w, targets, plan);
    } else if !w.stage.Failed? {
      CaptureKeeps(w, targets, plan);
      CaptureStays(w, targets, plan);
    }
  }

  lemma {:induction false} InvRun(plan: Plan, deployments: map<Name, Deployment>, containers: nat, steps: seq<Step>)
    ensures Inv(Exec(Initial(plan, deployments, containers), steps, plan), plan)
    decreases |steps|
  {
    if steps != [] {
      InvRun(plan, deployments, containers, steps[..|steps| - 1]);
      InvStep(Exec(Initial(plan, deployments, containers), steps[..|steps| - 1], plan), steps[|steps| - 1], plan);
    }
  }

  // ----- the journal at every step

  /** The stages between the truncation of journal.json and its writing. */
  predicate Writing(s: Stage) {
    s.Fill? || s.FinalFill?
  }

  /** The stage a run is in, or was in when it stopped. */
  function LiveStage(start: World, steps: seq<Step>, plan: Plan): Stage
    decreases |steps|
  {
    if steps != [] && Exec(start, steps, plan).stage.Failed? then LiveStage(start, steps[..|steps| - 1], plan)
    else Exec(start, steps, plan).stage
  }

  lemma TargetFile(w: World, name: Name, plan: Plan)
    requires w.file.Torn? <==> Writing(w.stage)
    ensures var w' := TargetStep(w, name, plan);
            if w'.stage.Failed? then w'.file == w.file else w'.file.Torn? <==> Writing(w'.stage)
  {
    match w.stage
    case Fetch => assert FetchStep(w, name).file == w.file;
    case Scale => assert ScaleStep(w, name).file == w.file;
    case Drain => assert DrainStep(w, name, plan).file == w.file;
    case _ =>
  }

  lemma CaptureFile(w: World, plan: Plan)
    requires w.file.Torn? <==> Writing(w.stage)
    ensures var w' := CaptureStep(w, plan);
            if w'.stage.Failed? then w'.file == w.file else w'.file.Torn? <==> Writing(w'.stage)
  {
    match w.stage
    case PodsGone =>
    case ContainersGone =>
    case Archive(next) =>
    case FinalTruncate =>
    case FinalFill =>
    case _ =>
  }

  lemma FailedStands(w: World, step: Step, plan: Plan)
    requires w.stage.Failed?
    ensures Apply(w, step, plan).stage.Failed? && Apply(w, step, plan).file == w.file
  {
  }

  /** A step that does not fail leaves the file torn exactly in a writing stage; one that fails leaves it alone. */
  lemma FileStep(w: World, step: Step, plan: Plan)
    requires !w.stage.Failed? && (w.file.Torn? <==> Writing(w.stage))
    ensures var w' := Apply(w, step, plan);
            if w'.stage.Failed? then w'.file == w.file else w'.file.Torn? <==> Writing(w'.stage)
  {
    if !step.Work? {
      OtherSteps(w, step, plan);
    } else if !w.stage.Finished? && !step.giveUp {
      if w.at < |plan.Targets()| {
        TargetFile(w, plan.Targets()[w.at], plan);
      } else {
        CaptureFile(w, plan);
      }
    }
  }

  lemma {:induction false} TornWhen(plan: Plan, deployments: map<Name, Deployment>, containers: nat, steps: seq<Step>)
    ensures var start := Initial(plan, deployments, containers);
            && !LiveStage(start, steps, plan).Failed?
            && (Exec(start, steps, plan).file.Torn? <==> Writing(LiveStage(start, steps, plan)))
    decreases |steps|
  {
    if steps != [] {
      var start, front, last := Initial(plan, deployments, containers), steps[..|steps| - 1], steps[|steps| - 1];
      TornWhen(plan, deployments, containers, front);
      var w := Exec(start, front, plan);
      if w.stage.Failed? {
        FailedStands(w, last, plan);
      } else {
        FileStep(w, last, plan);
      }
    }
  }

  /** The journal's promise at every step of every run, crashes included: it is broken exactly when
      something has been scaled down and the run is, or stopped, between the truncation of journal.json
      and its writing, for a target or at the end. */
  lemma JournalAtEveryStep(plan: Plan, deployments: map<Name, Deployment>, containers: nat, steps: seq<Step>)
    ensures var start := Initial(plan, deployments, containers);
            var w := Exec(start, steps, plan);
            !JournalComplete(w, plan) <==> w.scaled != map[] && Writing(LiveStage(start, steps, plan))
  {
    InvRun(plan, deployments, containers, steps);
    TornWhen(plan, deployments, containers, steps);
  }

  // ----- what was scaled down stays down, as long as nobody puts it up again

  predicate Quiet(w: World, n: Name) {
    n in w.scaled && n in w.deployments && w.deployments[n].replicas == 0 && w.deployments[n].uid == w.scaled[n].uid
  }

  /** The target whose pods the capture is waiting for, or was when it stopped. */
  predicate AtHand(w: World, targets: seq<Name>, n: Name) {
    (w.stage.Drain? || w.stage.Failed?) && w.at < |targets| && n == targets[w.at]
  }

  /** What has been scaled down is down, and all but the target at hand is drained. */
  predicate Kept(w: World, targets: seq<Name>) {
    forall n :: n in w.scaled ==> Quiet(w, n) && (AtHand(w, targets, n) || w.deployments[n].pods == 0)
  }

  /** An edit that scales up nothing the capture has scaled down, nor gives it a pod once it is drained. */
  predicate Harmless(w: World, targets: seq<Name>, name: Name, d: Deployment) {
    name in w.scaled ==> d.replicas == 0 && d.uid == w.scaled[name].uid && (AtHand(w, targets, name) || d.pods == 0)
  }

  predicate HarmlessStep(w: World, step: Step, plan: Plan) {
    step.Edit? ==> Harmless(w, plan.Targets(), step.name, step.deployment)
  }

  function After(plan: Plan, deployments: map<Name, Deployment>, containers: nat, steps: seq<Step>, k: nat): World
    requires k <= |steps|
  {
    Exec(Initial(plan, deployments, containers), steps[..k], plan)
  }

  lemma AfterNext(plan: Plan, deployments: map<Name, Deployment>, containers: nat, steps: seq<Step>, k: nat)
    requires k < |steps|
    ensures After(plan, deployments, containers, steps, k + 1)
         == Apply(After(plan, deployments, containers, steps, k), steps[k], plan)
  {
    assert steps[..k + 1][..k] == steps[..k];
  }

  predicate HandsOff(plan: Plan, deployments: map<Name, Deployment>, containers: nat, steps: seq<Step>) {
    forall k :: 0 <= k < |steps| ==> HarmlessStep(After(plan, deployments, containers, steps, k), steps[k], plan)
  }

  lemma KeptScale(w: World, targets: seq<Name>)
    requires Kept(w, targets) && w.stage.Scale? && w.at < |targets|
    ensures Kept(ScaleStep(w, targets[w.at]), targets)
  {
    var w' := ScaleStep(w, targets[w.at]);
    if w'.stage.Drain? {
      forall n | n in w'.scaled ensures Quiet(w', n) && (AtHand(w', targets, n) || w'.deployments[n].pods == 0) {
        if n != targets[w.at] { assert Quiet(w, n); }
      }
    }
  }

  lemma KeptDrain(w: World, targets: seq<Name>, plan: Plan)
    requires Kept(w, targets) && w.stage.Drain? && w.at < |targets|
    ensures Kept(DrainStep(w, targets[w.at], plan), targets)
  {
    var w' := DrainStep(w, targets[w.at], plan);
    forall n | n in w'.scaled ensures Quiet(w', n) && (AtHand(w', targets, n) || w'.deployments[n].pods == 0) {
      assert Quiet(w, n);
    }
  }

  /** A step that changes nothing in the cluster, and moves from no target at hand. */
  lemma KeptStill(w: World, w': World, targets: seq<Name>)
    requires Kept(w, targets) && w'.deployments == w.deployments && w'.scaled == w.scaled && w'.at == w.at
    requires w'.stage.Failed? || (!w.stage.Drain? && !w.stage.Failed?)
    ensures Kept(w', targets)
  {
    forall n | n in w'.scaled ensures Quiet(w', n) && (AtHand(w', targets, n) || w'.deployments[n].pods == 0) {
      assert Quiet(w, n);
    }
  }

  lemma TargetStill(w: World, name: Name, plan: Plan)
    requires !w.stage.Scale? && !w.stage.Drain?
    ensures var w' := TargetStep(w, name, plan);
            && w'.deployments == w.deployments && w'.scaled == w.scaled && w'.at == w.at
            && (w.stage.Failed? ==> w'.stage.Failed?)
  {
    match w.stage
    case Fetch => assert FetchStep(w, name).deployments == w.deployments;
    case _ =>
  }

  lemma KeptTarget(w: World, targets: seq<Name>, plan: Plan)
    requires Kept(w, targets) && w.at < |targets|
    ensures Kept(TargetStep(w, targets[w.at], plan), targets)
  {
    if w.stage.Scale? {
      KeptScale(w, targets);
    } else if w.stage.Drain? {
      KeptDrain(w, targets, plan);
    } else {
      TargetStill(w, targets[w.at], plan);
      KeptStill(w, TargetStep(w, targets[w.at], plan), targets);
    }
  }

  lemma KeptPods(w: World, w': World, targets: seq<Name>, n: Name)
    requires Kept(w, targets) && w'.scaled == w.scaled && w'.at == w.at && w'.stage == w.stage
    requires n in w.deployments && n in w'.deployments && w'.deployments == w.deployments[n := w'.deployments[n]]
    requires w'.deployments[n].replicas == w.deployments[n].replicas && w'.deployments[n].uid == w.deployments[n].uid
    requires w'.deployments[n].pods <= w.deployments[n].pods || w.deployments[n].pods < w.deployments[n].replicas
    ensures Kept(w', targets)
  {
    forall m | m in w'.scaled ensures Quiet(w', m) && (AtHand(w', targets, m) || w'.deployments[m].pods == 0) {
      assert Quiet(w, m);
    }
  }

  lemma KeptEdit(w: World, targets: seq<Name>, name: Name, d: Deployment)
    requires Kept(w, targets)
    ensures Kept(w.(deployments := w.deployments[name := d]), targets) <==> Harmless(w, targets, name, d)
  {
    var w' := w.(deployments := w.deployments[name := d]);
    if Harmless(w, targets, name, d) {
      forall n | n in w'.scaled ensures Quiet(w', n) && (AtHand(w', targets, n) || w'.deployments[n].pods == 0) {
        assert Quiet(w, n);
      }
    } else {
      assert !(Quiet(w', name) && (AtHand(w', targets, name) || w'.deployments[name].pods == 0));
    }
  }

  lemma KeptWork(w: World, giveUp: bool, plan: Plan)
    requires Inv(w, plan) && Kept(w, plan.Targets())
    ensures Kept(WorkStep(w, giveUp, plan), plan.Targets())
  {
    var targets := plan.Targets();
    if w.stage.Finished? {
    } else if giveUp {
      KeptStill(w, w.(stage := Failed), targets);
    } else if w.at < |targets| {
      KeptTarget(w, targets, plan);
    } else if !w.stage.Failed? {
      CaptureMoves(w, plan);
      KeptStill(w, CaptureStep(w, plan), targets);
    }
  }

  /** Every step but a harmful edit keeps down what is down. */
  lemma KeptStep(w: World, step: Step, plan: Plan)
    requires Inv(w, plan) && Kept(w, plan.Targets())
    ensures Kept(Apply(w, step, plan), plan.Targets()) <==> HarmlessStep(w, step, plan)
  {
    var targets := plan.Targets();
    match step
    case Work(giveUp) => KeptWork(w, giveUp, plan);
    case PodExit(n) =>
      if Apply(w, step, plan) != w { KeptPods(w, Apply(w, step, plan), targets, n); }
    case PodStart(n) =>
      if Apply(w, step, plan) != w { KeptPods(w, Apply(w, step, plan), targets, n); }
    case Edit(n, d) => KeptEdit(w, targets, n, d);
    case Crash =>
      if !w.stage.Finished? { KeptStill(w, w.(stage := Failed), targets); }
    case _ => KeptContainers(w, Apply(w, step, plan), targets);
  }

  lemma KeptContainers(w: World, w': World, targets: seq<Name>)
    requires Kept(w, targets) && w' == w.(containers := w'.containers)
    ensures Kept(w', targets)
  {
    forall n | n in w'.scaled ensures Quiet(w', n) && (AtHand(w', targets, n) || w'.deployments[n].pods == 0) {
      assert Quiet(w, n);
    }
  }

  lemma {:induction false} KeptUpTo(plan: Plan, deployments: map<Name, Deployment>, containers: nat, steps: seq<Step>, n: nat)
    requires n <= |steps|
    requires forall k :: 0 <= k < n ==> HarmlessStep(After(plan, deployments, containers, steps, k), steps[k], plan)
    ensures Kept(After(plan, deployments, containers, steps, n), plan.Targets())
  {
    if n > 0 {
      KeptUpTo(plan, deployments, containers, steps, n - 1);
      AfterNext(plan, deployments, containers, steps, n - 1);
      InvRun(plan, deployments, containers, steps[..n - 1]);
      KeptStep(After(plan, deployments, containers, steps, n - 1), steps[n - 1], plan);
    }
  }

  /** Throughout a run everything the capture has scaled down stays down and, once drained, stays
      without pods, exactly when no edit of it by anyone else scales it up, replaces it or gives it pods. */
  lemma QuietThroughoutWhen(plan: Plan, deployments: map<Name, Deployment>, containers: nat, steps: seq<Step>)
    ensures (forall k :: 0 <= k <= |steps| ==> Kept(After(plan, deployments, containers, steps, k), plan.Targets()))
       <==> HandsOff(plan, deployments, containers, steps)
  {
    if forall k :: 0 <= k <= |steps| ==> Kept(After(plan, deployments, containers, steps, k), plan.Targets()) {
      forall k | 0 <= k < |steps|
        ensures HarmlessStep(After(plan, deployments, containers, steps, k), steps[k], plan)
      {
        InvRun(plan, deployments, containers, steps[..k]);
        AfterNext(plan, deployments, containers, steps, k);
        assert Kept(After(plan, deployments, containers, steps, k), plan.Targets());
        assert Kept(After(plan, deployments, containers, steps, k + 1), plan.Targets());
        KeptStep(After(plan, deployments, containers, steps, k), steps[k], plan);
      }
    }
    if HandsOff(plan, deployments, containers, steps) {
      forall k | 0 <= k <= |steps| ensures Kept(After(plan, deployments, containers, steps, k), plan.Targets()) {
        KeptUpTo(plan, deployments, containers, steps, k);
      }
    }
  }

  lemma KeptAtTheEnd(plan: Plan, deployments: map<Name, Deployment>, containers: nat, steps: seq<Step>)
    requires HandsOff(plan, deployments, containers, steps)
    ensures Kept(Exec(Initial(plan, deployments, containers), steps, plan), plan.Targets())
  {
    KeptUpTo(plan, deployments, containers, steps, |steps|);
    assert steps[..|steps|] == steps;
  }

  /** No database dump starts while a writer is scaled up or still has a pod, as long as others keep
      their hands off what is down. */
  lemma DumpIsQuiet(plan: Plan, deployments: map<Name, Deployment>, containers: nat, steps: seq<Step>, k: nat)
    requires k < |plan.writers| && HandsOff(plan, deployments, containers, steps)
    requires var s := Exec(Initial(plan, deployments, containers), steps, plan).stage; s.DumpDatabase? || s.DumpRoles?
    ensures var w := Exec(Initial(plan, deployments, containers), steps, plan);
            && Quiet(w, plan.writers[k]) && w.deployments[plan.writers[k]].pods == 0
  {
    InvRun(plan, deployments, containers, steps);
    KeptAtTheEnd(plan, deployments, containers, steps);
    assert plan.Targets()[k] == plan.writers[k];
  }

  /** From the first archive on every target is scaled down and has no pod, under the same
      condition; and whatever others do, the database copy is taken only while the server is inactive. */
  lemma CaptureIsQuiet(plan: Plan, deployments: map<Name, Deployment>, containers: nat, steps: seq<Step>)
    requires Captured(Exec(Initial(plan, deployments, containers), steps, plan).stage)
    ensures var w := Exec(Initial(plan, deployments, containers), steps, plan);
            && (HandsOff(plan, deployments, containers, steps) ==>
                  forall k :: 0 <= k < |plan.Targets()| ==>
                    Quiet(w, plan.Targets()[k]) && w.deployments[plan.Targets()[k]].pods == 0)
            && (w.stage.CopySqlite? || w.stage.FinalTruncate? || w.stage.FinalFill? || w.stage.Finished? ==> !w.serverActive)
  {
    InvRun(plan, deployments, containers, steps);
    if HandsOff(plan, deployments, containers, steps) {
      KeptAtTheEnd(plan, deployments, containers, steps);
    }
  }

  // ----- the deployments outside the plan

  predicate Empty(w: World) { NoPods(w) && w.containers == 0 }

  /** Others edit nothing but targets, and those harmlessly. */
  predicate ProperStep(w: World, step: Step, plan: Plan) {
    HarmlessStep(w, step, plan) && (step.Edit? ==> step.name in plan.Targets())
  }

  predicate Proper(plan: Plan, deployments: map<Name, Deployment>, containers: nat, steps: seq<Step>) {
    forall k :: 0 <= k < |steps| ==> ProperStep(After(plan, deployments, containers, steps, k), steps[k], plan)
  }

  /** In every such run, whatever is captured is captured from an empty namespace. */
  ghost predicate AlwaysEmpty(plan: Plan, deployments: map<Name, Deployment>, containers: nat) {
    forall steps: seq<Step> :: Proper(plan, deployments, containers, steps) ==>
      var w := Exec(Initial(plan, deployments, containers), steps, plan); Captured(w.stage) ==> Empty(w)
  }

  /** Every deployment outside the plan starts scaled down. */
  predicate OutsidersIdle(plan: Plan, deployments: map<Name, Deployment>) {
    forall n :: n in deployments && n !in plan.Targets() ==> deployments[n].replicas == 0
  }

  ghost predicate SameOutsiders(plan: Plan, one: map<Name, Deployment>, two: map<Name, Deployment>) {
    forall n :: n !in plan.Targets() ==> (n in one <==> n in two) && (n in one ==> one[n].replicas == two[n].replicas)
  }

  lemma OutsidersStep(w: World, step: Step, plan: Plan)
    requires ProperStep(w, step, plan)
    ensures SameOutsiders(plan, w.deployments, Apply(w, step, plan).deployments)
  {
    if step.Work? { OutsidersWork(w, step.giveUp, plan); }
  }

  lemma OutsidersWork(w: World, giveUp: bool, plan: Plan)
    ensures SameOutsiders(plan, w.deployments, WorkStep(w, giveUp, plan).deployments)
  {
    if !w.stage.Finished? && !giveUp {
      if w.at < |plan.Targets()| {
        var name := plan.Targets()[w.at];
        if w.stage.Scale? {
          assert SameOutsiders(plan, w.deployments, ScaleStep(w, name).deployments);
        } else if w.stage.Drain? {
          assert DrainStep(w, name, plan).deployments == w.deployments;
        } else {
          TargetStill(w, name, plan);
        }
      } else {
        assert CaptureStep(w, plan).deployments == w.deployments;
      }
    }
  }

  lemma {:induction false} OutsidersKept(plan: Plan, deployments: map<Name, Deployment>, containers: nat, steps: seq<Step>,
                                         n: nat)
    requires Proper(plan, deployments, containers, steps) && n <= |steps|
    ensures SameOutsiders(plan, deployments, After(plan, deployments, containers, steps, n).deployments)
  {
    if n > 0 {
      OutsidersKept(plan, deployments, containers, steps, n - 1);
      AfterNext(plan, deployments, containers, steps, n - 1);
      OutsidersStep(After(plan, deployments, containers, steps, n - 1), steps[n - 1], plan);
    }
  }

  /** Once the pods were seen gone there are none, and from the first archive on no container either. */
  predicate Sealed(w: World) {
    (w.stage.ContainersGone? || Captured(w.stage) ==> NoPods(w)) && (Captured(w.stage) ==> w.containers == 0)
  }

  lemma SealedTarget(w: World, name: Name, plan: Plan)
    requires !Captured(w.stage) && !w.stage.ContainersGone?
    ensures var s := TargetStep(w, name, plan).stage; !Captured(s) && !s.ContainersGone?
  {
    match w.stage
    case Fetch => assert !Captured(FetchStep(w, name).stage);
    case Scale => assert !Captured(ScaleStep(w, name).stage);
    case Drain => assert !Captured(DrainStep(w, name, plan).stage);
    case _ =>
  }

  lemma SealedWork(w: World, giveUp: bool, plan: Plan)
    requires StageInv(w, plan.Targets(), plan) && Sealed(w)
    ensures Sealed(WorkStep(w, giveUp, plan))
  {
    if w.at < |plan.Targets()| && !giveUp && !w.stage.Finished? {
      SealedTarget(w, plan.Targets()[w.at], plan);
    }
  }

  /** Where nothing is scaled up, no pod starts. */
  lemma NoneUp(w: World, plan: Plan)
    requires w.stage.ContainersGone? || Captured(w.stage)
    requires Inv(w, plan) && Kept(w, plan.Targets()) && OutsidersIdle(plan, w.deployments)
    ensures forall n :: n in w.deployments ==> w.deployments[n].replicas == 0
  {
    forall n | n in w.deployments ensures w.deployments[n].replicas == 0 {
      if n in plan.Targets() {
        var k :| 0 <= k < |plan.Targets()| && plan.Targets()[k] == n;
        assert Quiet(w, n);
      }
    }
  }

  lemma SealedEdit(w: World, step: Step, plan: Plan)
    requires Inv(w, plan) && ProperStep(w, step, plan) && step.Edit? && Sealed(w)
    ensures Sealed(Apply(w, step, plan))
  {
    if w.stage.ContainersGone? || Captured(w.stage) {
      var k :| 0 <= k < |plan.Targets()| && plan.Targets()[k] == step.name;
      assert step.name in w.scaled && !AtHand(w, plan.Targets(), step.name);
    }
  }

  lemma SealedStep(w: World, step: Step, plan: Plan)
    requires Inv(w, plan) && Kept(w, plan.Targets()) && OutsidersIdle(plan, w.deployments)
    requires ProperStep(w, step, plan) && Sealed(w)
    ensures Sealed(Apply(w, step, plan))
  {
    if step.Work? {
      SealedWork(w, step.giveUp, plan);
    } else if step.Edit? {
      SealedEdit(w, step, plan);
    } else if w.stage.ContainersGone? || Captured(w.stage) {
      NoneUp(w, plan);
    }
  }

  lemma ProperIsHandsOff(plan: Plan, deployments: map<Name, Deployment>, containers: nat, steps: seq<Step>)
    requires Proper(plan, deployments, containers, steps)
    ensures HandsOff(plan, deployments, containers, steps)
  {
    forall k | 0 <= k < |steps| ensures HarmlessStep(After(plan, deployments, containers, steps, k), steps[k], plan) {
      assert ProperStep(After(plan, deployments, containers, steps, k), steps[k], plan);
    }
  }

  lemma {:induction false} SealedUpTo(plan: Plan, deployments: map<Name, Deployment>, containers: nat, steps: seq<Step>,
                                      n: nat)
    requires Proper(plan, deployments, containers, steps) && OutsidersIdle(plan, deployments) && n <= |steps|
    ensures Sealed(After(plan, deployments, containers, steps, n))
  {
    if n > 0 {
      SealedUpTo(plan, deployments, containers, steps, n - 1);
      AfterNext(plan, deployments, containers, steps, n - 1);
      InvRun(plan, deployments, containers, steps[..n - 1]);
      ProperIsHandsOff(plan, deployments, containers, steps);
      KeptUpTo(plan, deployments, containers, steps, n - 1);
      OutsidersKept(plan, deployments, containers, steps, n - 1);
      SealedStep(After(plan, deployments, containers, steps, n - 1), steps[n - 1], plan);
    }
  }

  lemma ProperThen(plan: Plan, deployments: map<Name, Deployment>, containers: nat, steps: seq<Step>, step: Step)
    requires Proper(plan, deployments, containers, steps) && !step.Edit?
    ensures Proper(plan, deployments, containers, steps + [step])
  {
    forall k | 0 <= k < |steps + [step]|
      ensures ProperStep(After(plan, deployments, containers, steps + [step], k), (steps + [step])[k], plan)
    {
      if k < |steps| {
        assert (steps + [step])[..k] == steps[..k];
        assert ProperStep(After(plan, deployments, containers, steps, k), steps[k], plan);
      }
    }
  }

  /** A deployment outside the plan that is scaled up puts a pod into some captured state. */
  lemma OutsiderStarts(plan: Plan, deployments: map<Name, Deployment>, containers: nat, steps: seq<Step>, n: Name)
    requires Proper(plan, deployments, containers, steps)
    requires Captured(Exec(Initial(plan, deployments, containers), steps, plan).stage)
    requires n in deployments && n !in plan.Targets() && deployments[n].replicas > 0
    ensures !AlwaysEmpty(plan, deployments, containers)
  {
    var start := Initial(plan, deployments, containers);
    var w := Exec(start, steps, plan);
    OutsidersKept(plan, deployments, containers, steps, |steps|);
    assert steps[..|steps|] == steps;
    if w.deployments[n].pods == 0 {
      ProperThen(plan, deployments, containers, steps, PodStart(n));
      ExecThen(start, steps, PodStart(n), plan);
      hide Exec, Proper;
      assert Exec(start, steps + [PodStart(n)], plan).deployments[n].pods == 1;
    }
  }

  /** Where a capture can be reached at all, every capture is taken from an empty namespace exactly
      when every deployment outside the plan starts with no replicas. */
  lemma EmptyWhen(plan: Plan, deployments: map<Name, Deployment>, containers: nat, steps: seq<Step>)
    requires Proper(plan, deployments, containers, steps)
    requires Captured(Exec(Initial(plan, deployments, containers), steps, plan).stage)
    ensures AlwaysEmpty(plan, deployments, containers) <==> OutsidersIdle(plan, deployments)
  {
    if OutsidersIdle(plan, deployments) {
      forall run: seq<Step> | Proper(plan, deployments, containers, run)
        ensures var w := Exec(Initial(plan, deployments, containers), run, plan); Captured(w.stage) ==> Empty(w)
      {
        SealedUpTo(plan, deployments, containers, run, |run|);
        assert run[..|run|] == run;
      }
    } else {
      var n :| n in deployments && n !in plan.Targets() && deployments[n].replicas != 0;
      OutsiderStarts(plan, deployments, containers, steps, n);
    }
  }

  // ----- runs that show why the conditions are there

  const APPS: Plan := Plan(["open-webui", "litellm"], false, map[], ["models"])
  const UP := Deployment(1, 1, 1, 0)

  lemma ExecThen(w: World, steps: seq<Step>, step: Step, plan: Plan)
    ensures Exec(w, steps + [step], plan) == Apply(Exec(w, steps, plan), step, plan)
  {
    assert (steps + [step])[..|steps|] == steps;
  }

  /** A host that dies while the second writer is being journalled has scaled the first one down and
      has nothing on disk to resume it from. */
  lemma TornJournalForgets()
    ensures var steps := [Work(false)] + [Work(false)] + [Work(false)] + [Work(false)] + [Work(false)] + [Work(false)]
                         + [Work(false)] + [Crash];
            var w := Exec(Initial(APPS, map["open-webui" := UP, "litellm" := UP], 0), steps, APPS);
            && w.stage.Failed? && "open-webui" in w.scaled && w.file.Torn? && !JournalComplete(w, APPS)
  {
    var start := Initial(APPS, map["open-webui" := UP, "litellm" := UP], 0);
    var s1 := [Work(false)];
    var s2 := s1 + [Work(false)];
    var s3 := s2 + [Work(false)];
    var s4 := s3 + [Work(false)];
    var s5 := s4 + [Work(false)];
    var s6 := s5 + [Work(false)];
    var s7 := s6 + [Work(false)];
    assert Exec(start, s1, APPS) == Apply(start, Work(false), APPS) by {
      assert s1[..0] == [];
    }
    var w4 := FirstScaled();
    ExecThen(start, s1, Work(false), APPS);
    ExecThen(start, s2, Work(false), APPS);
    ExecThen(start, s3, Work(false), APPS);
    ExecThen(start, s4, Work(false), APPS);
    ExecThen(start, s5, Work(false), APPS);
    ExecThen(start, s6, Work(false), APPS);
    ExecThen(start, s7, Crash, APPS);
    SecondTorn(w4);
    CrashTorn(Exec(start, s7, APPS));
  }

  lemma CrashTorn(w: World)
    requires w.file.Torn? && w.stage.Fill? && "open-webui" in w.scaled
    ensures var w' := Apply(w, Crash, APPS);
            w'.stage.Failed? && "open-webui" in w'.scaled && w'.file.Torn? && !JournalComplete(w', APPS)
  {
  }

  lemma FirstScaled() returns (w4: World)
    ensures var start := Initial(APPS, map["open-webui" := UP, "litellm" := UP], 0);
            w4 == Apply(Apply(Apply(Apply(start, Work(false), APPS), Work(false), APPS), Work(false), APPS), Work(false), APPS)
    ensures w4.stage.Drain? && w4.at == 0 && w4.scaled.Keys == {"open-webui"} && w4.journal.Keys == {"open-webui"}
    ensures w4.deployments == map["open-webui" := Deployment(1, 2, 0, 0), "litellm" := UP]
  {
    var start := Initial(APPS, map["open-webui" := UP, "litellm" := UP], 0);
    var w1 := Apply(start, Work(false), APPS);
    assert w1 == start.(document := UP, stage := Truncate, journal := map["open-webui" := Entry(1, 1)]);
    var w3 := Apply(Apply(w1, Work(false), APPS), Work(false), APPS);
    assert w3 == w1.(file := Holds(w1.journal), stage := Scale);
    w4 := Apply(w3, Work(false), APPS);
  }

  lemma SecondTorn(w4: World)
    requires w4.stage.Drain? && w4.at == 0 && w4.scaled.Keys == {"open-webui"} && w4.journal.Keys == {"open-webui"}
    requires w4.deployments == map["open-webui" := Deployment(1, 2, 0, 0), "litellm" := UP]
    ensures var w7 := Apply(Apply(Apply(w4, Work(false), APPS), Work(false), APPS), Work(false), APPS);
            w7.file.Torn? && w7.stage.Fill? && w7.scaled == w4.scaled
  {
    var w5 := Apply(w4, Work(false), APPS);
    assert w5 == w4.(at := 1, stage := Fetch);
    var w6 := Apply(w5, Work(false), APPS);
    assert w6.stage == Truncate && w6.at == 1;
  }

  /** A deployment the capture knows nothing of can start a pod between the check and the archive. */
  lemma OutsiderCanWrite()
    ensures var w := Exec(Initial(Plan([], false, map[], ["models"]), map["other" := UP], 0),
                          [Work(false)] + [Work(false)] + [PodStart("other")], Plan([], false, map[], ["models"]));
            w.stage.Archive? && !NoPods(w)
  {
    var plan := Plan([], false, map[], ["models"]);
    var start := Initial(plan, map["other" := UP], 0);
    assert Exec(start, [Work(false)], plan) == Apply(start, Work(false), plan) by {
      assert [Work(false)][..0] == [];
    }
    ExecThen(start, [Work(false)], Work(false), plan);
    ExecThen(start, [Work(false)] + [Work(false)], PodStart("other"), plan);
    var w := Exec(start, [Work(false)] + [Work(false)] + [PodStart("other")], plan);
    assert w.deployments["other"].pods == 1;
  }

  const FULL: Plan := Plan(["litellm"], true, map[], [])
  const BASE := Deployment(2, 1, 1, 1)

  /** A writer that was scaled down and drained, and is then scaled up again by someone else, writes
      while the database is dumped: the capture looks at each writer's pods once. */
  lemma EditedWriterCanWrite()
    ensures var steps := [Work(false)] + [Work(false)] + [Work(false)] + [Work(false)] + [Work(false)]
                         + [Edit("litellm", Deployment(1, 3, 1, 0))] + [PodStart("litellm")];
            var w := Exec(Initial(FULL, map["litellm" := UP, DATABASE := BASE], 0), steps, FULL);
            w.stage.DumpDatabase? && "litellm" in w.scaled && "litellm" in w.deployments && w.deployments["litellm"].pods == 1
  {
    var start := Initial(FULL, map["litellm" := UP, DATABASE := BASE], 0);
    var s1 := [Work(false)];
    var s2 := s1 + [Work(false)];
    var s3 := s2 + [Work(false)];
    var s4 := s3 + [Work(false)];
    var s5 := s4 + [Work(false)];
    var s6 := s5 + [Edit("litellm", Deployment(1, 3, 1, 0))];
    assert Exec(start, s1, FULL) == Apply(start, Work(false), FULL) by { assert s1[..0] == []; }
    ExecThen(start, s1, Work(false), FULL);
    ExecThen(start, s2, Work(false), FULL);
    ExecThen(start, s3, Work(false), FULL);
    ExecThen(start, s4, Work(false), FULL);
    ExecThen(start, s5, Edit("litellm", Deployment(1, 3, 1, 0)), FULL);
    ExecThen(start, s6, PodStart("litellm"), FULL);
    WriterDrained(start);
  }

  lemma WriterDrained(start: World)
    requires start == Initial(FULL, map["litellm" := UP, DATABASE := BASE], 0)
    ensures var w := Apply(Apply(Apply(Apply(Apply(start, Work(false), FULL), Work(false), FULL), Work(false), FULL),
                                 Work(false), FULL), Work(false), FULL);
            w.stage.DumpDatabase? && "litellm" in w.scaled && "litellm" in w.deployments
  {
    var w1 := Apply(start, Work(false), FULL);
    assert w1 == start.(document := UP, stage := Truncate, journal := map["litellm" := Entry(1, 1)]);
    var w3 := Apply(Apply(w1, Work(false), FULL), Work(false), FULL);
    assert w3 == w1.(file := Holds(w1.journal), stage := Scale);
    var w4 := Apply(w3, Work(false), FULL);
    assert w4.stage.Drain? && w4.at == 0 && w4.deployments["litellm"].pods == 0 && "litellm" in w4.scaled;
  }
}
