/** What a capture has written at each of its stages, that a finished one has written everything once
    and in order, and that a capture which nobody disturbs finishes. */
module BackupCapture {
  import opened Results
  import opened Bags
  import opened Backup

  function Dumps(plan: Plan): seq<Part> { if plan.full then [Dump, Roles] else [] }

  /** The archives of these volumes: all but the database's own. */
  function Archives(volumes: seq<Name>): seq<Part> {
    if volumes == [] then []
    else
      var last := volumes[|volumes| - 1];
      Archives(volumes[..|volumes| - 1]) + if last == DATABASE then [] else [Volume(last)]
  }

  /** A whole capture: the database and its roles, every volume, and the stopped server last. */
  function Whole(plan: Plan): seq<Part> { Dumps(plan) + Archives(plan.volumes) + [Server] }

  /** What has been captured when the run is at this stage, working on the `at`-th target. */
  function Sofar(stage: Stage, at: nat, plan: Plan): seq<Part> {
    match stage
    case DumpDatabase => []
    case DumpRoles => [Dump]
    case Archive(next) => Dumps(plan) + Archives(plan.volumes[..if next <= |plan.volumes| then next else 0])
    case StopServer | CheckServer | CopySqlite => Dumps(plan) + Archives(plan.volumes)
    case FinalTruncate | FinalFill | Finished => Whole(plan)
    case _ => if at < |plan.writers| then [] else Dumps(plan)
  }

  predicate TakenInv(w: World, plan: Plan) {
    if w.stage.Failed? then w.taken <= Whole(plan)
    else
      w.taken == Sofar(w.stage, w.at, plan) && (w.stage.Archive? ==> w.stage.next <= |plan.volumes|)
  }

  lemma {:induction false} ArchivesPrefix(volumes: seq<Name>, n: nat)
    requires n <= |volumes|
    ensures Archives(volumes[..n]) <= Archives(volumes)
  {
    if n < |volumes| {
      var front := volumes[..|volumes| - 1];
      ArchivesPrefix(front, n);
      assert front[..n] == volumes[..n];
    } else {
      assert volumes[..n] == volumes;
    }
  }

  lemma SofarIsPart(stage: Stage, at: nat, plan: Plan)
    requires stage.DumpRoles? ==> plan.full
    ensures Sofar(stage, at, plan) <= Whole(plan)
  {
    if stage.Archive? && stage.next <= |plan.volumes| {
      ArchivesPrefix(plan.volumes, stage.next);
    } else {
      ArchivesPrefix(plan.volumes, 0);
    }
  }

  /** A failure keeps what was captured. */
  lemma FailKeeps(w: World, w': World, plan: Plan)
    requires TakenInv(w, plan) && StageInv(w, plan.Targets(), plan) && w'.stage.Failed? && w'.taken == w.taken
    ensures TakenInv(w', plan)
  {
    SofarIsPart(w.stage, w.at, plan);
  }

  lemma DrainTakes(w: World, plan: Plan)
    requires TakenInv(w, plan) && StageInv(w, plan.Targets(), plan) && w.stage.Drain? && w.at < |plan.Targets()|
    ensures TakenInv(DrainStep(w, plan.Targets()[w.at], plan), plan)
  {
  }

  lemma TargetTakes(w: World, plan: Plan)
    requires TakenInv(w, plan) && StageInv(w, plan.Targets(), plan) && w.at < |plan.Targets()|
    ensures TakenInv(TargetStep(w, plan.Targets()[w.at], plan), plan)
  {
    var name := plan.Targets()[w.at];
    var w' := TargetStep(w, name, plan);
    if w.stage.Drain? {
      DrainTakes(w, plan);
    } else if w'.stage.Failed? {
      TargetFails(w, name, plan);
      FailKeeps(w, w', plan);
    } else {
      TargetMoves(w, name, plan);
    }
  }

  lemma TargetFails(w: World, name: Name, plan: Plan)
    requires TargetStep(w, name, plan).stage.Failed?
    ensures TargetStep(w, name, plan).taken == w.taken
  {
    match w.stage
    case Fetch => assert FetchStep(w, name).taken == w.taken;
    case Scale => assert ScaleStep(w, name).taken == w.taken;
    case _ =>
  }

  lemma FetchMoves(w: World, name: Name)
    ensures var w' := FetchStep(w, name);
            !w'.stage.Failed? ==> w'.stage == Truncate && w'.at == w.at && w'.taken == w.taken
  {
  }

  lemma ScaleMoves(w: World, name: Name)
    ensures var w' := ScaleStep(w, name);
            !w'.stage.Failed? ==> w'.stage == Drain && w'.at == w.at && w'.taken == w.taken
  {
  }

  lemma TargetMoves(w: World, name: Name, plan: Plan)
    requires !w.stage.Drain? && !TargetStep(w, name, plan).stage.Failed?
    ensures var w' := TargetStep(w, name, plan);
            w'.at == w.at
            && w'.taken == w.taken + (if w.stage.DumpDatabase? then [Dump] else if w.stage.DumpRoles? then [Roles] else [])
    ensures TargetStep(w, name, plan).stage == (match w.stage
                            case Fetch => Truncate
                            case Truncate => Fill
                            case Fill => Scale
                            case Scale => Drain
                            case DumpDatabase => DumpRoles
                            case DumpRoles => Fetch
                            case _ => w.stage)
  {
    hide FetchStep, ScaleStep, DrainStep;
    match w.stage
    case Fetch => FetchMoves(w, name);
    case Scale => ScaleMoves(w, name);
    case _ =>
  }

  lemma ArchiveTakes(w: World, next: nat, plan: Plan)
    requires TakenInv(w, plan) && w.stage == Archive(next)
    ensures TakenInv(ArchiveStep(w, next, plan), plan)
  {
    if next < |plan.volumes| {
      assert plan.volumes[..next + 1][..next] == plan.volumes[..next];
    } else {
      assert plan.volumes[..next] == plan.volumes;
    }
  }

  lemma CaptureMovesOn(w: World, plan: Plan)
    requires !w.stage.Archive? && !ForTarget(w.stage)
    ensures var w' := CaptureStep(w, plan);
            w'.at == w.at && w'.taken == w.taken + if w.stage.CopySqlite? then [Server] else []
    ensures var w' := CaptureStep(w, plan);
            && (w'.stage.Failed? || w'.stage == (match w.stage
                                                 case PodsGone => if NoPods(w) then ContainersGone else PodsGone
                                                 case ContainersGone => Archive(0)
                                                 case StopServer => CheckServer
                                                 case CheckServer => CopySqlite
                                                 case CopySqlite => FinalTruncate
                                                 case FinalTruncate => FinalFill
                                                 case FinalFill => Finished
                                                 case _ => w.stage))
            && (w'.stage.Failed? ==> w.stage.ContainersGone? || w.stage.CheckServer? || w.stage.Failed?)
  {
    hide NoPods;
    match w.stage
    case PodsGone =>
    case CopySqlite =>
    case _ =>
  }

  lemma CaptureTakes(w: World, plan: Plan)
    requires TakenInv(w, plan) && StageInv(w, plan.Targets(), plan) && w.at == |plan.Targets()|
    ensures TakenInv(CaptureStep(w, plan), plan)
  {
    if w.stage.Archive? {
      ArchiveTakes(w, w.stage.next, plan);
    } else {
      hide CaptureStep;
      CaptureMovesOn(w, plan);
      if CaptureStep(w, plan).stage.Failed? {
        FailKeeps(w, CaptureStep(w, plan), plan);
      } else if w.stage.ContainersGone? {
        assert plan.volumes[..0] == [];
      }
    }
  }

  lemma TakenStep(w: World, step: Step, plan: Plan)
    requires Inv(w, plan) && TakenInv(w, plan)
    ensures TakenInv(Apply(w, step, plan), plan)
  {
    if !step.Work? {
      OtherSteps(w, step, plan);
      if Apply(w, step, plan).stage.Failed? { FailKeeps(w, Apply(w, step, plan), plan); }
    } else if w.stage.Finished? {
    } else if step.giveUp {
      FailKeeps(w, Apply(w, step, plan), plan);
    } else if w.at < |plan.Targets()| {
      TargetTakes(w, plan);
    } else {
      CaptureTakes(w, plan);
    }
  }

  /** At every step of every run, whatever others do, what has been captured is exactly what the stage
      says; a run that failed holds a beginning of the whole capture. */
  lemma {:induction false} TakenThroughout(plan: Plan, deployments: map<Name, Deployment>, containers: nat, steps: seq<Step>)
    ensures TakenInv(Exec(Initial(plan, deployments, containers), steps, plan), plan)
    decreases |steps|
  {
    if steps != [] {
      var front, last := steps[..|steps| - 1], steps[|steps| - 1];
      TakenThroughout(plan, deployments, containers, front);
      InvRun(plan, deployments, containers, front);
      TakenStep(Exec(Initial(plan, deployments, containers), front, plan), last, plan);
    }
  }

  // ----- each volume once

  lemma {:induction false} ArchivesHold(volumes: seq<Name>, name: Name)
    requires forall i, j :: 0 <= i < j < |volumes| ==> volumes[i] != volumes[j]
    ensures multiset(Archives(volumes))[Volume(name)] == if name in volumes && name != DATABASE then 1 else 0
  {
    if volumes != [] {
      var front, last := volumes[..|volumes| - 1], volumes[|volumes| - 1];
      ArchivesHold(front, name);
      LastIsNew(volumes, name);
      hide Archives;
      ArchivesNext(volumes);
      CountedIn(Archives(front), if last == DATABASE then [] else [Volume(last)], Volume(name));
    }
  }

  lemma ArchivesNext(volumes: seq<Name>)
    requires volumes != []
    ensures var last := volumes[|volumes| - 1];
            Archives(volumes) == Archives(volumes[..|volumes| - 1]) + if last == DATABASE then [] else [Volume(last)]
  {
  }

  lemma LastIsNew(volumes: seq<Name>, name: Name)
    requires volumes != [] && forall i, j :: 0 <= i < j < |volumes| ==> volumes[i] != volumes[j]
    ensures var front, last := volumes[..|volumes| - 1], volumes[|volumes| - 1];
            (name in volumes <==> name in front || name == last) && !(name in front && name == last)
  {
    assert volumes == volumes[..|volumes| - 1] + [volumes[|volumes| - 1]];
  }

  /** From the stop of the server on, the finished capture included, every volume of the plan but the
      database's own has been archived exactly once and nothing else has; before the pods and containers
      were seen gone, none. And a finished capture holds the whole of its plan, in order. */
  lemma VolumesOnce(plan: Plan, deployments: map<Name, Deployment>, containers: nat, steps: seq<Step>, name: Name)
    requires forall i, j :: 0 <= i < j < |plan.volumes| ==> plan.volumes[i] != plan.volumes[j]
    ensures var w := Exec(Initial(plan, deployments, containers), steps, plan);
            && (Captured(w.stage) && !w.stage.Archive? ==>
                  multiset(w.taken)[Volume(name)] == if name in plan.volumes && name != DATABASE then 1 else 0)
            && (!Captured(w.stage) && !w.stage.Failed? ==> Volume(name) !in w.taken)
            && (w.stage.Finished? ==> w.taken == Whole(plan))
  {
    TakenThroughout(plan, deployments, containers, steps);
    TakenOnce(Exec(Initial(plan, deployments, containers), steps, plan), plan, name);
  }

  lemma TakenOnce(w: World, plan: Plan, name: Name)
    requires forall i, j :: 0 <= i < j < |plan.volumes| ==> plan.volumes[i] != plan.volumes[j]
    requires TakenInv(w, plan)
    ensures Captured(w.stage) && !w.stage.Archive? ==>
              multiset(w.taken)[Volume(name)] == if name in plan.volumes && name != DATABASE then 1 else 0
    ensures !Captured(w.stage) && !w.stage.Failed? ==> Volume(name) !in w.taken
    ensures w.stage.Finished? ==> w.taken == Whole(plan)
  {
    hide Archives;
    ArchivesHold(plan.volumes, name);
    CountedIn(Dumps(plan), Archives(plan.volumes), Volume(name));
    CountedIn(Dumps(plan) + Archives(plan.volumes), [Server], Volume(name));
  }

  lemma CountedIn<T>(one: seq<T>, two: seq<T>, x: T)
    ensures multiset(one + two)[x] == multiset(one)[x] + multiset(two)[x]
  {
  }

  // ----- when the capture's own work fails

  /** The capture's own work fails for exactly these reasons: the target is missing, runs several replicas or
      is not the one that was planned; it changed since it was read; there is not one database pod;
      a container is left; or the server is still active. */
  predicate WorkRefused(w: World, name: Name) {
    match w.stage
    case Fetch =>
      name !in w.deployments || w.deployments[name].replicas > 1
      || (name in w.journal && w.journal[name].uid != w.deployments[name].uid)
    case Scale =>
      name !in w.deployments || w.deployments[name].version != w.document.version
      || w.deployments[name].uid != w.document.uid || w.deployments[name].replicas != w.document.replicas
    case DumpDatabase => name !in w.deployments || w.deployments[name].pods != 1
    case ContainersGone => w.containers != 0
    case CheckServer => w.serverActive
    case _ => false
  }

  lemma WorkFailsWhen(w: World, plan: Plan)
    requires StageInv(w, plan.Targets(), plan) && !w.stage.Failed?
    ensures WorkStep(w, false, plan).stage.Failed? <==>
            WorkRefused(w, if w.at < |plan.Targets()| then plan.Targets()[w.at] else "")
  {
    if w.at < |plan.Targets()| {
      var name := plan.Targets()[w.at];
      if w.stage.Fetch? { assert TargetStep(w, name, plan) == FetchStep(w, name); }
      if w.stage.Scale? { assert TargetStep(w, name, plan) == ScaleStep(w, name); }
      if w.stage.Drain? { assert TargetStep(w, name, plan) == DrainStep(w, name, plan); }
    } else {
      CaptureRefuses(w, plan);
    }
  }

  lemma CaptureRefuses(w: World, plan: Plan)
    requires !ForTarget(w.stage) && !w.stage.Failed?
    ensures CaptureStep(w, plan).stage.Failed? <==>
            (w.stage.ContainersGone? && w.containers != 0) || (w.stage.CheckServer? && w.serverActive)
  {
    if w.stage.Archive? { assert !ArchiveStep(w, w.stage.next, plan).stage.Failed?; }
  }

  // ----- a capture that nobody disturbs

  /** Pods and containers exit, and the capture works; nobody edits, starts or kills anything. */
  predicate CalmStep(step: Step) {
    step == Work(false) || step.PodExit? || step.ContainerExit?
  }

  predicate Calm(steps: seq<Step>) { forall i :: 0 <= i < |steps| ==> CalmStep(steps[i]) }

  ghost predicate Reaches(w: World, v: World, plan: Plan) {
    exists steps: seq<Step> :: Calm(steps) && Exec(w, steps, plan) == v
  }

  lemma ReachesItself(w: World, plan: Plan)
    ensures Reaches(w, w, plan)
  {
    assert Calm([]) && Exec(w, [], plan) == w;
  }

  lemma ReachesNext(w: World, v: World, step: Step, plan: Plan)
    requires Reaches(w, v, plan) && CalmStep(step)
    ensures Reaches(w, Apply(v, step, plan), plan)
  {
    var steps :| Calm(steps) && Exec(w, steps, plan) == v;
    ExecThen(w, steps, step, plan);
    assert Calm(steps + [step]);
  }

  /** What such a capture needs of the targets still ahead; all other deployments have no pod. */
  predicate Ahead(w: World, plan: Plan, k: nat)
    requires k < |plan.Targets()|
  {
    var name := plan.Targets()[k];
    && name in w.deployments && w.deployments[name].replicas <= 1
    && (name in w.journal ==> w.journal[name].uid == w.deployments[name].uid)
    && (plan.full && k == |plan.writers| ==> w.deployments[name].pods == 1)
  }

  predicate AllAhead(w: World, plan: Plan) {
    && w.at <= |plan.Targets()|
    && (forall k :: w.at <= k < |plan.Targets()| ==> Ahead(w, plan, k))
    && (forall n :: n in w.deployments && w.deployments[n].pods > 0 ==> n in plan.Targets()[w.at..])
  }

  predicate DistinctTargets(plan: Plan) {
    forall i, j :: 0 <= i < j < |plan.Targets()| ==> plan.Targets()[i] != plan.Targets()[j]
  }

  /** The pods of a target exit, one by one. */
  lemma {:induction false} PodsExit(start: World, w: World, plan: Plan, name: Name)
    requires Reaches(start, w, plan) && w.stage.Drain? && name in w.deployments
    ensures Reaches(start, w.(deployments := w.deployments[name := w.deployments[name].(pods := 0)]), plan)
    decreases w.deployments[name].pods
  {
    if w.deployments[name].pods == 0 {
      assert w.deployments[name := w.deployments[name].(pods := 0)] == w.deployments;
    } else {
      var v := Apply(w, PodExit(name), plan);
      ReachesNext(start, w, PodExit(name), plan);
      PodsExit(start, v, plan, name);
      assert v.deployments[name := v.deployments[name].(pods := 0)] == w.deployments[name := w.deployments[name].(pods := 0)];
    }
  }

  /** The journal once a target was read, and the state once it is scaled down. */
  function Journalled(w: World, name: Name): map<Name, Entry>
    requires name in w.deployments
  {
    if name in w.journal then w.journal
    else w.journal[name := Entry(w.deployments[name].uid, w.deployments[name].replicas)]
  }

  function ScaledDown(w: World, name: Name): World
    requires name in w.deployments
  {
    var d, journal := w.deployments[name], Journalled(w, name);
    w.(document := d, journal := journal, file := Holds(journal), stage := Drain,
       deployments := w.deployments[name := d.(replicas := 0, version := d.version + 1)],
       scaled := if name in w.scaled then w.scaled else w.scaled[name := Entry(d.uid, d.replicas)])
  }

  lemma WorksOn(w: World, name: Name, plan: Plan)
    requires w.at < |plan.Targets()| && plan.Targets()[w.at] == name && !w.stage.Finished?
    ensures Apply(w, Work(false), plan) == TargetStep(w, name, plan)
  {
  }

  lemma FetchAhead(w: World, name: Name, plan: Plan)
    requires w.stage.Fetch? && w.at < |plan.Targets()| && plan.Targets()[w.at] == name && Ahead(w, plan, w.at)
    ensures Apply(w, Work(false), plan)
         == w.(document := w.deployments[name], stage := Truncate, journal := Journalled(w, name))
  {
    WorksOn(w, name, plan);
  }

  lemma ScaleAhead(w: World, name: Name, plan: Plan)
    requires w.stage.Scale? && w.at < |plan.Targets()| && plan.Targets()[w.at] == name
    requires name in w.deployments && w.document == w.deployments[name]
    ensures var d := w.deployments[name];
            Apply(w, Work(false), plan) == w.(
              deployments := w.deployments[name := d.(replicas := 0, version := d.version + 1)], stage := Drain,
              scaled := if name in w.scaled then w.scaled else w.scaled[name := Entry(d.uid, d.replicas)])
  {
    WorksOn(w, name, plan);
  }

  /** From the look at a target to the wait for its pods: it is journalled, on disk too, and scaled down. */
  lemma TargetScales(start: World, w: World, name: Name, plan: Plan)
    requires w.stage.Fetch? && w.at < |plan.Targets()| && plan.Targets()[w.at] == name && Ahead(w, plan, w.at)
    requires Reaches(start, w, plan)
    ensures Reaches(start, ScaledDown(w, name), plan)
  {
    hide Apply, Reaches;
    var w1 := w.(document := w.deployments[name], stage := Truncate, journal := Journalled(w, name));
    var w3 := w1.(file := Holds(w1.journal), stage := Scale);
    FetchAhead(w, name, plan);
    ReachesNext(start, w, Work(false), plan);
    Writes(w1, name, plan);
    ReachesNext(start, w1, Work(false), plan);
    ReachesNext(start, w1.(file := Torn, stage := Fill), Work(false), plan);
    ScaleAhead(w3, name, plan);
    ReachesNext(start, w3, Work(false), plan);
  }

  lemma Writes(w: World, name: Name, plan: Plan)
    requires w.stage.Truncate? && w.at < |plan.Targets()| && plan.Targets()[w.at] == name
    ensures Apply(w, Work(false), plan) == w.(file := Torn, stage := Fill)
    ensures Apply(w.(file := Torn, stage := Fill), Work(false), plan) == w.(file := Holds(w.journal), stage := Scale)
  {
    WorksOn(w, name, plan);
    WorksOn(w.(file := Torn, stage := Fill), name, plan);
  }

  /** The state once a target's pods are gone. */
  function Drained(w: World, name: Name, plan: Plan): World
    requires name in w.deployments
  {
    var v := ScaledDown(w, name);
    v.(deployments := v.deployments[name := v.deployments[name].(pods := 0)], at := w.at + 1,
       stage := if w.at + 1 == |plan.Targets()| then PodsGone else StageAt(plan, w.at + 1))
  }

  lemma TargetDrains(start: World, w: World, name: Name, plan: Plan)
    requires w.stage.Fetch? && w.at < |plan.Targets()| && plan.Targets()[w.at] == name && Ahead(w, plan, w.at)
    requires Reaches(start, w, plan)
    ensures Reaches(start, Drained(w, name, plan), plan)
  {
    TargetScales(start, w, name, plan);
    var v := ScaledDown(w, name);
    PodsExit(start, v, plan, name);
    var u := v.(deployments := v.deployments[name := v.deployments[name].(pods := 0)]);
    WorksOn(u, name, plan);
    ReachesNext(start, u, Work(false), plan);
  }

  lemma DrainedAhead(w: World, name: Name, plan: Plan)
    requires DistinctTargets(plan) && w.at < |plan.Targets()| && plan.Targets()[w.at] == name && AllAhead(w, plan)
    requires name in w.deployments
    ensures AllAhead(Drained(w, name, plan), plan)
  {
    var v, targets := Drained(w, name, plan), plan.Targets();
    forall k | v.at <= k < |targets| ensures Ahead(v, plan, k) {
      assert Ahead(w, plan, k) && targets[k] != name;
    }
    forall n | n in v.deployments && v.deployments[n].pods > 0 ensures n in targets[v.at..] {
      assert n in targets[w.at..] && n != name;
      var k :| w.at <= k < |targets| && targets[k] == n;
      assert targets[v.at..][k - v.at] == n;
    }
  }

  /** The dumps, where the database is next. */
  lemma DatabaseDumps(start: World, w: World, plan: Plan)
    requires w.stage.DumpDatabase? && StageInv(w, plan.Targets(), plan) && AllAhead(w, plan) && Reaches(start, w, plan)
    ensures Reaches(start, w.(stage := Fetch, taken := w.taken + [Dump] + [Roles]), plan)
  {
    var name := plan.Targets()[w.at];
    assert Ahead(w, plan, w.at);
    WorksOn(w, name, plan);
    ReachesNext(start, w, Work(false), plan);
    var v := w.(stage := DumpRoles, taken := w.taken + [Dump]);
    WorksOn(v, name, plan);
    ReachesNext(start, v, Work(false), plan);
  }

  /** One target after another. */
  /** What lies ahead does not depend on the stage nor on what has been taken. */
  lemma StillAhead(w: World, u: World, plan: Plan)
    requires AllAhead(w, plan) && u == w.(stage := u.stage, taken := u.taken)
    ensures AllAhead(u, plan)
  {
    forall k | u.at <= k < |plan.Targets()| ensures Ahead(u, plan, k) {
      assert Ahead(w, plan, k);
    }
  }

  lemma {:induction false} TargetsDrain(start: World, w: World, plan: Plan) returns (v: World)
    requires DistinctTargets(plan) && StageInv(w, plan.Targets(), plan) && AllAhead(w, plan) && Reaches(start, w, plan)
    requires w.stage == (if w.at == |plan.Targets()| then PodsGone else StageAt(plan, w.at))
    ensures Reaches(start, v, plan) && v.stage.PodsGone? && v.at == |plan.Targets()| && NoPods(v) && v.containers == w.containers
    decreases |plan.Targets()| - w.at
  {
    if w.at == |plan.Targets()| {
      v := w;
      NoneAhead(w, plan);
    } else {
      hide Reaches, AllAhead, StageInv, DistinctTargets, StageAt, NoPods;
      var u := OneTargetDrains(start, w, plan);
      v := TargetsDrain(start, u, plan);
    }
  }

  lemma NoneAhead(w: World, plan: Plan)
    requires AllAhead(w, plan) && w.at == |plan.Targets()|
    ensures NoPods(w)
  {
  }

  lemma OneTargetDrains(start: World, w: World, plan: Plan) returns (v: World)
    requires DistinctTargets(plan) && StageInv(w, plan.Targets(), plan) && AllAhead(w, plan) && Reaches(start, w, plan)
    requires w.at < |plan.Targets()| && w.stage == StageAt(plan, w.at)
    ensures v.at == w.at + 1 && v.containers == w.containers
    ensures StageInv(v, plan.Targets(), plan) && AllAhead(v, plan) && Reaches(start, v, plan)
    ensures v.stage == if v.at == |plan.Targets()| then PodsGone else StageAt(plan, v.at)
  {
    var u := Dumped(start, w, plan);
    assert Ahead(u, plan, u.at);
    hide Reaches, DistinctTargets, AllAhead, Ahead, Drained, StageInv, StageAt;
    var name := plan.Targets()[u.at];
    TargetDrains(start, u, name, plan);
    DrainedAhead(u, name, plan);
    DrainedStage(u, name, plan);
    v := Drained(u, name, plan);
  }

  lemma DrainedStage(w: World, name: Name, plan: Plan)
    requires name in w.deployments && w.at < |plan.Targets()|
    ensures var v := Drained(w, name, plan);
            && v.at == w.at + 1 && v.containers == w.containers && StageInv(v, plan.Targets(), plan)
            && v.stage == if v.at == |plan.Targets()| then PodsGone else StageAt(plan, v.at)
  {
  }

  lemma Dumped(start: World, w: World, plan: Plan) returns (u: World)
    requires StageInv(w, plan.Targets(), plan) && AllAhead(w, plan) && Reaches(start, w, plan)
    requires w.at < |plan.Targets()| && w.stage == StageAt(plan, w.at)
    ensures u.at == w.at && u.containers == w.containers && u.serverActive == w.serverActive && u.stage.Fetch?
    ensures AllAhead(u, plan) && Reaches(start, u, plan)
  {
    hide Reaches, AllAhead;
    u := w;
    if w.stage.DumpDatabase? {
      DatabaseDumps(start, w, plan);
      u := w.(stage := Fetch, taken := w.taken + [Dump] + [Roles]);
      StillAhead(w, u, plan);
    }
  }

  lemma {:induction false} ContainersExit(start: World, w: World, plan: Plan)
    requires Reaches(start, w, plan)
    ensures Reaches(start, w.(containers := 0), plan)
    decreases w.containers
  {
    if w.containers > 0 {
      ReachesNext(start, w, ContainerExit, plan);
      ContainersExit(start, Apply(w, ContainerExit, plan), plan);
    } else {
      assert w.(containers := 0) == w;
    }
  }

  lemma CapturesOn(w: World, plan: Plan)
    requires w.at == |plan.Targets()| && !w.stage.Finished?
    ensures Apply(w, Work(false), plan) == CaptureStep(w, plan)
  {
  }

  lemma {:induction false} VolumesArchive(start: World, w: World, plan: Plan) returns (v: World)
    requires Reaches(start, w, plan) && w.at == |plan.Targets()| && w.stage.Archive? && w.stage.next <= |plan.volumes|
    ensures Reaches(start, v, plan) && v.at == w.at && v.stage.StopServer?
    decreases |plan.volumes| - w.stage.next
  {
    CapturesOn(w, plan);
    ReachesNext(start, w, Work(false), plan);
    v := ArchiveStep(w, w.stage.next, plan);
    if w.stage.next < |plan.volumes| { v := VolumesArchive(start, v, plan); }
  }

  lemma ServerCopies(start: World, w: World, plan: Plan) returns (v: World)
    requires Reaches(start, w, plan) && w.at == |plan.Targets()| && w.stage.StopServer?
    ensures Reaches(start, v, plan) && v.stage.Finished?
  {
    hide Reaches;
    var w1 := w.(serverActive := false, stage := CheckServer);
    CapturesOn(w, plan);
    ReachesNext(start, w, Work(false), plan);
    var w2 := w1.(stage := CopySqlite);
    CapturesOn(w1, plan);
    ReachesNext(start, w1, Work(false), plan);
    var w3 := w2.(stage := FinalTruncate, taken := w2.taken + [Server]);
    CapturesOn(w2, plan);
    ReachesNext(start, w2, Work(false), plan);
    var w4 := w3.(file := Torn, stage := FinalFill);
    CapturesOn(w3, plan);
    ReachesNext(start, w3, Work(false), plan);
    v := w4.(file := Holds(w4.journal), stage := Finished);
    CapturesOn(w4, plan);
    ReachesNext(start, w4, Work(false), plan);
  }

  /** A capture that nobody disturbs finishes, and has then captured the whole of its plan: where each
      target is the deployment that was planned, with at most one replica, the database has its one pod,
      and nothing outside the plan has any. */
  lemma CaptureFinishes(plan: Plan, deployments: map<Name, Deployment>, containers: nat) returns (v: World)
    requires DistinctTargets(plan) && AllAhead(Initial(plan, deployments, containers), plan)
    ensures Reaches(Initial(plan, deployments, containers), v, plan)
    ensures v.stage.Finished? && v.taken == Whole(plan)
  {
    hide Reaches;
    var start := Initial(plan, deployments, containers);
    ReachesItself(start, plan);
    v := TargetsDrain(start, start, plan);
    ChecksPass(start, v, plan);
    v := VolumesArchive(start, v.(containers := 0, stage := Archive(0)), plan);
    v := ServerCopies(start, v, plan);
    ReachedIsWhole(plan, deployments, containers, v);
  }

  lemma ChecksPass(start: World, w: World, plan: Plan)
    requires Reaches(start, w, plan) && w.at == |plan.Targets()| && w.stage.PodsGone? && NoPods(w)
    ensures Reaches(start, w.(containers := 0, stage := Archive(0)), plan)
  {
    hide Reaches;
    ContainersExit(start, w, plan);
    var w1 := w.(containers := 0);
    CapturesOn(w1, plan);
    ReachesNext(start, w1, Work(false), plan);
    var w2 := w1.(stage := ContainersGone);
    CapturesOn(w2, plan);
    ReachesNext(start, w2, Work(false), plan);
  }

  lemma ReachedIsWhole(plan: Plan, deployments: map<Name, Deployment>, containers: nat, v: World)
    requires Reaches(Initial(plan, deployments, containers), v, plan) && v.stage.Finished?
    ensures v.taken == Whole(plan)
  {
    var steps :| Calm(steps) && Exec(Initial(plan, deployments, containers), steps, plan) == v;
    TakenThroughout(plan, deployments, containers, steps);
  }

  // ----- what others do

  /** A pod starts exactly where fewer run than were asked for, and ends exactly where one runs; a
      container starts exactly while some pod exists, and ends exactly while one runs. */
  lemma OthersMove(w: World, n: Name, plan: Plan)
    ensures Apply(w, PodStart(n), plan) != w <==> n in w.deployments && w.deployments[n].pods < w.deployments[n].replicas
    ensures Apply(w, PodExit(n), plan) != w <==> n in w.deployments && w.deployments[n].pods > 0
    ensures n in w.deployments && w.deployments[n].pods < w.deployments[n].replicas ==>
              Apply(Apply(w, PodStart(n), plan), PodExit(n), plan) == w
    ensures Apply(w, ContainerStart, plan).containers == w.containers + 1 <==> !NoPods(w)
    ensures !NoPods(w) ==> Apply(Apply(w, ContainerStart, plan), ContainerExit, plan) == w
    ensures Apply(w, ContainerExit, plan) != w <==> w.containers > 0
  {
    if n in w.deployments {
      var d := w.deployments[n];
      var up := Apply(w, PodStart(n), plan);
      if d.pods < d.replicas {
        assert up.deployments[n].pods == d.pods + 1;
        assert up.deployments[n := d] == w.deployments;
      }
      if d.pods > 0 { assert Apply(w, PodExit(n), plan).deployments[n].pods == d.pods - 1; }
    }
  }
}
