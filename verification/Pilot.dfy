/** The GraphRAG pilot's budgeted proxy: one lock, a journal written before every upstream send,
    handlers that run concurrently, replies that may be lost, saves that may fail half way, and a
    process that may die at any step and be started again. */
module Pilot {
  import opened Results

  datatype IndexStatus = NotRun | Running | Complete | Failed

  datatype Journal = Journal(requests: nat, bytes: nat, promptTokens: nat, completionTokens: nat, usageMissing: nat,
                             failedRequests: nat, inflight: bool, uncertain: bool, index: IndexStatus)

  datatype Profile = Profile(maxRequests: nat, maxTotalBytes: nat, maxRequestBytes: nat)

  /** state.json, and whether its `.pending` sibling was left behind. */
  datatype Disk = Disk(journal: Journal, pending: bool)

  /** How far one atomic replacement got before it returned or raised. */
  datatype Saving = Saved | Unsaved(pending: bool) | ReplacedThenRaised

  function Write(disk: Disk, journal: Journal, saving: Saving): Disk {
    if disk.pending then disk
    else
      match saving
      case Saved => Disk(journal, false)
      case ReplacedThenRaised => Disk(journal, false)
      case Unsaved(pending) => Disk(disk.journal, pending)
  }

  predicate WriteSucceeds(disk: Disk, saving: Saving) {
    !disk.pending && saving.Saved?
  }

  /** What `verify` demands of the journal before any run. */
  predicate Verified(j: Journal, p: Profile) {
    && !j.uncertain && !j.inflight && j.index != Running
    && j.requests <= p.maxRequests && j.bytes <= p.maxTotalBytes
  }

  predicate Admits(j: Journal, p: Profile, valid: bool, size: nat) {
    && !j.uncertain && !j.inflight && valid && size <= p.maxRequestBytes
    && j.requests < p.maxRequests && j.bytes + size <= p.maxTotalBytes
  }

  function Reserved(j: Journal, size: nat): Journal {
    j.(requests := j.requests + 1, bytes := j.bytes + size, inflight := true)
  }

  /** How an upstream call ended: an accepted answer with or without usage, a refusal that is known
      to be final, or a loss after which the upstream may still be working. The error clauses name
      refused connections, timeouts and server errors; a `Dropped` reply (a truncated body, a broken
      status line) passes them by, and the request is settled as if it were over. */
  datatype Ending = Answered(usage: Option<(nat, nat)>) | Rejected | Lost | Dropped

  function Counted(j: Journal, e: Ending): Journal {
    match e
    case Answered(None) => j.(usageMissing := j.usageMissing + 1)
    case Answered(Some(u)) =>
      j.(promptTokens := j.promptTokens + u.0, completionTokens := j.completionTokens + u.1)
    case _ => j
  }

  function Settled(j: Journal, uncertain: bool): Journal {
    j.(inflight := false, uncertain := j.uncertain || uncertain)
  }

  function Closed(j: Journal, indexing: bool, success: bool): Journal {
    j.(uncertain := j.uncertain || j.inflight,
       index := if indexing then (if success then Complete else Failed) else j.index)
  }

  /** The proxy's shared object; each method is one critical section under its lock, and is tied to
      the step of the whole system that it carries out. */
  class LocalModel {
    var state: Journal
    var disk: Disk
    const profile: Profile

    ghost predicate Mirrors(w: World)
      reads this
    {
      w.process.Alive? && w.process.state == state && w.disk == disk
    }

    constructor (disk: Disk, profile: Profile, ghost w: World, ghost action: Action)
      requires Verified(disk.journal, profile)
      requires w.process.Dead? && w.disk == disk && disk.journal.index == (if action.Index? then NotRun else Complete)
      ensures this.disk == disk && this.state == disk.journal && this.profile == profile
      ensures Mirrors(Apply(w, Start(action), profile))
    {
      this.disk, this.state, this.profile := disk, disk.journal, profile;
    }

    method Save(saving: Saving) returns (ok: bool)
      modifies this`disk
      ensures disk == Write(old(disk), state, saving) && ok == WriteSucceeds(old(disk), saving)
    {
      if disk.pending { return false; }
      match saving {
        case Unsaved(pending) => disk := Disk(disk.journal, pending);
        case _ => disk := Disk(state, false);
      }
      return saving.Saved?;
    }

    /** The reservation a completion makes before it sends: only `ok` allows the send. */
    method Reserve(valid: bool, size: nat, saving: Saving, ghost w: World, ghost handler: nat) returns (ok: bool)
      requires Mirrors(w) && handler !in w.process.handlers
      modifies this
      ensures Mirrors(Apply(w, Begin(handler, valid, size, saving), profile))
      ensures ok <==> handler in Apply(w, Begin(handler, valid, size, saving), profile).process.handlers
      ensures !Admits(old(state), profile, valid, size) ==> state == old(state) && disk == old(disk) && !ok
      ensures Admits(old(state), profile, valid, size) ==>
                && state == Reserved(old(state), size) && disk == Write(old(disk), state, saving)
                && ok == WriteSucceeds(old(disk), saving)
      ensures ok ==> disk.journal.inflight
      ensures ok ==> disk.journal.requests == old(state).requests + 1 && disk.journal.bytes == old(state).bytes + size
    {
      if state.uncertain || state.inflight || !valid { return false; }
      if size > profile.maxRequestBytes { return false; }
      if !(state.requests < profile.maxRequests && state.bytes + size <= profile.maxTotalBytes) { return false; }
      state := state.(requests := state.requests + 1);
      state := state.(bytes := state.bytes + size);
      state := state.(inflight := true);
      ok := Save(saving);
    }

    method Account(ending: Ending, ghost w: World, ghost handler: nat)
      requires Mirrors(w) && handler in w.process.handlers && w.process.handlers[handler].Sent?
      modifies this`state
      ensures Mirrors(Apply(w, End(handler, ending), profile))
      ensures state == Counted(old(state), ending)
    {
      match ending
      case Answered(Some(u)) =>
        state := state.(promptTokens := state.promptTokens + u.0);
        state := state.(completionTokens := state.completionTokens + u.1);
      case Answered(None) => state := state.(usageMissing := state.usageMissing + 1);
      case _ =>
    }

    method Settle(uncertain: bool, saving: Saving, ghost w: World, ghost handler: nat) returns (ok: bool)
      requires Mirrors(w) && handler in w.process.handlers && w.process.handlers[handler] == Settling(uncertain)
      modifies this
      ensures Mirrors(Apply(w, Step.Settle(handler, saving), profile))
      ensures state == Settled(old(state), uncertain) && disk == Write(old(disk), state, saving)
      ensures old(state).uncertain ==> state.uncertain
    {
      state := state.(inflight := false);
      state := state.(uncertain := state.uncertain || uncertain);
      ok := Save(saving);
    }

    method Close(indexing: bool, success: bool, saving: Saving, ghost w: World) returns (ok: bool)
      requires Mirrors(w) && w.process.action.Index? == indexing && w.process.phase == Judged(success)
      modifies this
      ensures Mirrors(Apply(w, Step.Close(saving), profile))
      ensures state == Closed(old(state), indexing, success) && disk == Write(old(disk), state, saving)
      ensures old(state).inflight || old(state).uncertain ==> state.uncertain
    {
      if state.inflight {
        state := state.(uncertain := true);
      }
      if indexing {
        state := state.(index := if success then Complete else Failed);
      }
      ok := Save(saving);
    }
  }

  // ----- the whole system

  datatype Action = Index | Query

  datatype Stage =
    | Ready(size: nat)
    | Sent(serial: nat)
    | Settling(uncertain: bool)

  datatype Phase = Starting | Working | Judged(success: bool) | Done

  datatype Process = Dead | Alive(state: Journal, action: Action, phase: Phase, failuresBefore: nat,
                                  handlers: map<nat, Stage>)

  /** `active` holds the serials of the requests the upstream is still working on, `adrift` those of
      them whose reply was dropped. */
  datatype World = World(disk: Disk, process: Process, active: set<nat>, adrift: set<nat>, sentRequests: nat,
                         sentBytes: nat, indexStarts: nat)

  datatype Step =
    | Start(action: Action)
    | Launch(saving: Saving)
    | Begin(handler: nat, valid: bool, size: nat, saving: Saving)
    | Send(handler: nat)
    | Unreachable(handler: nat)
    | UpstreamDone(serial: nat)
    | End(handler: nat, ending: Ending)
    | Settle(handler: nat, saving: Saving)
    | CountFailure(saving: Saving)
    | Judge(success: bool)
    | Close(saving: Saving)
    | Exit
    | Crash

  function Prepared(): World {
    World(Disk(Journal(0, 0, 0, 0, 0, 0, false, false, NotRun), false), Dead, {}, {}, 0, 0, 0)
  }

  function SetState(w: World, j: Journal): World
    requires w.process.Alive?
  {
    w.(process := w.process.(state := j))
  }

  function SetStage(w: World, h: nat, s: Stage): World
    requires w.process.Alive?
  {
    w.(process := w.process.(handlers := w.process.handlers[h := s]))
  }

  function ApplyHandler(w: World, step: Step, p: Profile): World
    requires w.process.Alive?
  {
    var j, handlers := w.process.state, w.process.handlers;
    match step
    case Begin(h, valid, size, saving) =>
      if h in handlers || !Admits(j, p, valid, size) then w
      else
        var w' := SetState(w, Reserved(j, size)).(disk := Write(w.disk, Reserved(j, size), saving));
        if WriteSucceeds(w.disk, saving) then SetStage(w', h, Ready(size)) else w'
    case Send(h) =>
      if h !in handlers || !handlers[h].Ready? then w
      else
        var serial := w.sentRequests + 1;
        SetStage(w, h, Sent(serial)).(active := w.active + {serial}, sentRequests := serial,
                                      sentBytes := w.sentBytes + handlers[h].size)
    case Unreachable(h) =>
      if h !in handlers || !handlers[h].Ready? then w else SetStage(w, h, Settling(true))
    case End(h, ending) =>
      if h !in handlers || !handlers[h].Sent? then w
      else if ending.Lost? then SetStage(w, h, Settling(true))
      else if ending.Dropped? then
        SetStage(w, h, Settling(false)).(adrift := w.adrift + (w.active * {handlers[h].serial}))
      else SetStage(SetState(w, Counted(j, ending)), h, Settling(false))
           .(active := w.active - {handlers[h].serial}, adrift := w.adrift - {handlers[h].serial})
    case Settle(h, saving) =>
      if h !in handlers || !handlers[h].Settling? then w
      else
        var j' := Settled(j, handlers[h].uncertain);
        w.(process := w.process.(state := j', handlers := handlers - {h}), disk := Write(w.disk, j', saving))
    case _ => w
  }

  function ApplyRun(w: World, step: Step): World
    requires w.process.Alive?
  {
    var j := w.process.state;
    match step
    case Launch(saving) =>
      if !w.process.phase.Starting? then w
      else if w.process.action.Query? then w.(process := w.process.(phase := Working))
      else
        var j' := j.(index := Running);
        var w' := SetState(w, j').(disk := Write(w.disk, j', saving));
        if WriteSucceeds(w.disk, saving)
        then w'.(process := w'.process.(phase := Working), indexStarts := w.indexStarts + 1)
        else w'.(process := w'.process.(phase := Judged(false)))
    case Judge(success) =>
      if !w.process.phase.Working? then w
      else w.(process := w.process.(phase :=
        Judged(success && j.failedRequests == w.process.failuresBefore && !j.uncertain)))
    case CountFailure(saving) =>
      var j' := j.(failedRequests := j.failedRequests + 1);
      SetState(w, j').(disk := Write(w.disk, j', saving))
    case Close(saving) =>
      if !w.process.phase.Judged? then w
      else
        var j' := Closed(j, w.process.action.Index?, w.process.phase.success);
        w.(process := w.process.(state := j', phase := Done), disk := Write(w.disk, j', saving))
    case Exit => if w.process.phase.Done? then w.(process := Dead) else w
    case Crash => w.(process := Dead)
    case _ => w
  }

  function Apply(w: World, step: Step, p: Profile): World {
    if step.UpstreamDone? then w.(active := w.active - {step.serial}, adrift := w.adrift - {step.serial})
    else if w.process.Dead? then
      if step.Start? && Verified(w.disk.journal, p)
         && w.disk.journal.index == (if step.action.Index? then NotRun else Complete)
      then w.(process := Alive(w.disk.journal, step.action, Starting, w.disk.journal.failedRequests, map[]))
      else w
    else if step.Begin? || step.Send? || step.Unreachable? || step.End? || step.Settle? then ApplyHandler(w, step, p)
    else ApplyRun(w, step)
  }

  function Exec(w: World, steps: seq<Step>, p: Profile): World
    decreases |steps|
  {
    if steps == [] then w else Apply(Exec(w, steps[..|steps| - 1], p), steps[|steps| - 1], p)
  }

  // ----- the invariant

  predicate Within(j: Journal, p: Profile) {
    j.requests <= p.maxRequests && j.bytes <= p.maxTotalBytes
  }

  /** The requests still worked on whose end the proxy has not taken for granted. */
  function Watched(w: World): set<nat> { w.active - w.adrift }

  /** Nothing sent is missing from a journal, and nothing watched is unrecorded in it. */
  predicate Covers(j: Journal, w: World) {
    && w.sentRequests <= j.requests && w.sentBytes <= j.bytes
    && (Watched(w) != {} ==> j.inflight || j.uncertain)
    && (w.indexStarts > 0 ==> j.index != NotRun)
  }

  predicate GoodStage(s: Stage, w: World)
    requires w.process.Alive?
  {
    && w.process.state.inflight && w.disk.journal.inflight
    && (s.Ready? ==>
          && Watched(w) == {} && w.sentRequests < w.disk.journal.requests
          && w.sentBytes + s.size <= w.disk.journal.bytes)
    && (s.Sent? ==> Watched(w) <= {s.serial})
    && (s.Settling? && !s.uncertain ==> Watched(w) == {})
  }

  predicate GoodProcess(w: World, p: Profile)
    requires w.process.Alive?
  {
    var j := w.process.state;
    && Within(j, p) && Covers(j, w)
    && w.disk.journal.requests <= j.requests && w.disk.journal.bytes <= j.bytes
    && (w.disk.journal.uncertain ==> j.uncertain)
    && (forall h :: h in w.process.handlers ==> GoodStage(w.process.handlers[h], w))
    && (forall h, k :: h in w.process.handlers && k in w.process.handlers ==> h == k)
    && (w.process.action.Index? && w.process.phase.Starting? ==> w.indexStarts == 0)
    && (w.process.action.Index? && w.process.phase.Working? ==> j.index == Running && w.disk.journal.index == Running)
    && (w.process.action.Query? ==> j.index != NotRun)
  }

  predicate Inv(w: World, p: Profile) {
    && Within(w.disk.journal, p) && Covers(w.disk.journal, w)
    && (Watched(w) == {} || Watched(w) == {w.sentRequests})
    && w.adrift <= w.active && (forall s :: s in w.active ==> s <= w.sentRequests)
    && w.indexStarts <= 1
    && (w.process.Alive? ==> GoodProcess(w, p))
  }

  lemma BeginKeeps(w: World, h: nat, valid: bool, size: nat, saving: Saving, p: Profile)
    requires Inv(w, p) && w.process.Alive?
    ensures Inv(ApplyHandler(w, Begin(h, valid, size, saving), p), p)
  {
    var w' := ApplyHandler(w, Begin(h, valid, size, saving), p);
    if h !in w.process.handlers && Admits(w.process.state, p, valid, size) {
      assert w.process.handlers == map[] by {
        forall k ensures k !in w.process.handlers {
          assert k in w.process.handlers ==> GoodStage(w.process.handlers[k], w);
        }
      }
      assert Watched(w') == Watched(w) == {};
    }
  }

  lemma SendKeeps(w: World, h: nat, p: Profile)
    requires Inv(w, p) && w.process.Alive?
    ensures Inv(ApplyHandler(w, Send(h), p), p)
  {
    var w' := ApplyHandler(w, Send(h), p);
    if h in w.process.handlers && w.process.handlers[h].Ready? {
      assert GoodStage(w.process.handlers[h], w);
      assert w.sentRequests + 1 !in w.active;
      assert Watched(w') == Watched(w) + {w.sentRequests + 1} == {w.sentRequests + 1};
    }
  }

  lemma EndKeeps(w: World, h: nat, ending: Ending, p: Profile)
    requires Inv(w, p) && w.process.Alive?
    ensures Inv(ApplyHandler(w, End(h, ending), p), p)
  {
    var w' := ApplyHandler(w, End(h, ending), p);
    if h in w.process.handlers && w.process.handlers[h].Sent? {
      var serial := w.process.handlers[h].serial;
      assert GoodStage(w.process.handlers[h], w);
      if ending.Lost? {
        assert Watched(w') == Watched(w);
      } else {
        assert Watched(w') == Watched(w) - {serial} == {};
        CountedKeeps(w.process.state, ending);
      }
    }
  }

  lemma CountedKeeps(j: Journal, ending: Ending)
    ensures var j' := Counted(j, ending);
            && j'.requests == j.requests && j'.bytes == j.bytes && j'.inflight == j.inflight
            && j'.uncertain == j.uncertain && j'.index == j.index
  {
  }

  lemma SettleKeeps(w: World, h: nat, saving: Saving, p: Profile)
    requires Inv(w, p) && w.process.Alive?
    ensures Inv(ApplyHandler(w, Step.Settle(h, saving), p), p)
  {
    var w' := ApplyHandler(w, Step.Settle(h, saving), p);
    if h in w.process.handlers && w.process.handlers[h].Settling? {
      assert GoodStage(w.process.handlers[h], w);
      assert w'.process.handlers == map[];
      assert Watched(w') == Watched(w);
    }
  }

  lemma UnreachableKeeps(w: World, h: nat, p: Profile)
    requires Inv(w, p) && w.process.Alive?
    ensures Inv(ApplyHandler(w, Unreachable(h), p), p)
  {
    var w' := ApplyHandler(w, Unreachable(h), p);
    if h in w.process.handlers && w.process.handlers[h].Ready? {
      assert GoodStage(w.process.handlers[h], w);
      assert Watched(w') == Watched(w);
    }
  }

  lemma HandlerStep(w: World, step: Step, p: Profile)
    requires Inv(w, p) && w.process.Alive?
    ensures Inv(ApplyHandler(w, step, p), p)
  {
    match step
    case Begin(h, valid, size, saving) => BeginKeeps(w, h, valid, size, saving, p);
    case Send(h) => SendKeeps(w, h, p);
    case End(h, ending) => EndKeeps(w, h, ending, p);
    case Settle(h, saving) => SettleKeeps(w, h, saving, p);
    case Unreachable(h) => UnreachableKeeps(w, h, p);
    case _ =>
  }

  lemma RunStep(w: World, step: Step, p: Profile)
    requires Inv(w, p) && w.process.Alive?
    ensures Inv(ApplyRun(w, step), p)
  {
  }

  lemma DoneKeeps(w: World, serial: nat, p: Profile)
    requires Inv(w, p)
    ensures Inv(Apply(w, UpstreamDone(serial), p), p)
  {
    var w' := Apply(w, UpstreamDone(serial), p);
    assert Watched(w') == Watched(w) - {serial};
    if w.process.Alive? {
      forall h | h in w.process.handlers ensures GoodStage(w'.process.handlers[h], w') {
        assert GoodStage(w.process.handlers[h], w);
      }
    }
  }

  lemma InvStep(w: World, step: Step, p: Profile)
    requires Inv(w, p)
    ensures Inv(Apply(w, step, p), p)
  {
    if step.UpstreamDone? {
      DoneKeeps(w, step.serial, p);
    } else if w.process.Alive? {
      HandlerStep(w, step, p);
      RunStep(w, step, p);
    }
  }

  lemma {:induction false} InvRun(steps: seq<Step>, p: Profile)
    ensures Inv(Exec(Prepared(), steps, p), p)
    decreases |steps|
  {
    if steps != [] {
      InvRun(steps[..|steps| - 1], p);
      InvStep(Exec(Prepared(), steps[..|steps| - 1], p), steps[|steps| - 1], p);
    }
  }

  // ----- whole runs

  /** Under every schedule, loss and crash: what was sent never exceeds what the durable journal says,
      the journal never exceeds the budgets, at most one request that is still worked on upstream is
      watched, and while one is, no later run accepts the journal. */
  lemma BudgetIsDurable(steps: seq<Step>, p: Profile)
    ensures var w := Exec(Prepared(), steps, p);
            && |Watched(w)| <= 1
            && w.sentRequests <= w.disk.journal.requests <= p.maxRequests
            && w.sentBytes <= w.disk.journal.bytes <= p.maxTotalBytes
            && w.indexStarts <= 1
            && (Watched(w) != {} ==> !Verified(w.disk.journal, p))
  {
    InvRun(steps, p);
  }

  // ----- how many requests the upstream works on at once

  function After(steps: seq<Step>, k: nat, p: Profile): World
    requires k <= |steps|
  {
    Exec(Prepared(), steps[..k], p)
  }

  lemma AfterNext(steps: seq<Step>, k: nat, p: Profile)
    requires k < |steps|
    ensures After(steps, k + 1, p) == Apply(After(steps, k, p), steps[k], p)
  {
    assert steps[..k + 1][..k] == steps[..k];
  }

  predicate Sends(w: World, step: Step) {
    step.Send? && w.process.Alive? && step.handler in w.process.handlers && w.process.handlers[step.handler].Ready?
  }

  lemma OnlySendsAdd(w: World, step: Step, p: Profile)
    requires !Sends(w, step)
    ensures Apply(w, step, p).active <= w.active
  {
  }

  lemma SendAdds(w: World, step: Step, p: Profile)
    requires Inv(w, p) && Sends(w, step)
    ensures w.active == w.adrift
    ensures |Apply(w, step, p).active| == |w.active| + 1
  {
    assert GoodStage(w.process.handlers[step.handler], w);
    assert w.active == Watched(w) + w.adrift;
    assert w.sentRequests + 1 !in w.active;
    assert Apply(w, step, p).active == w.active + {w.sentRequests + 1};
  }

  lemma SmallerSet<T>(few: set<T>, many: set<T>)
    requires few <= many
    ensures |few| <= |many|
  {
    assert many == few + (many - few);
  }

  /** The upstream works on at most one request throughout a run exactly when the run sends nothing
      while it still works on a request whose reply was dropped. */
  lemma OneInFlightWhen(steps: seq<Step>, p: Profile)
    ensures (forall k :: 0 <= k <= |steps| ==> |After(steps, k, p).active| <= 1) <==>
            (forall k :: 0 <= k < |steps| && Sends(After(steps, k, p), steps[k]) ==> After(steps, k, p).adrift == {})
  {
    if forall k :: 0 <= k <= |steps| ==> |After(steps, k, p).active| <= 1 {
      forall k | 0 <= k < |steps| && Sends(After(steps, k, p), steps[k])
        ensures After(steps, k, p).adrift == {}
      {
        InvRun(steps[..k], p);
        SendAdds(After(steps, k, p), steps[k], p);
        AfterNext(steps, k, p);
        assert |After(steps, k + 1, p).active| <= 1;
      }
    }
    if forall k :: 0 <= k < |steps| && Sends(After(steps, k, p), steps[k]) ==> After(steps, k, p).adrift == {} {
      forall k | 0 <= k <= |steps| ensures |After(steps, k, p).active| <= 1 { OneUpTo(steps, k, p); }
    }
  }

  lemma {:induction false} OneUpTo(steps: seq<Step>, n: nat, p: Profile)
    requires n <= |steps|
    requires forall k :: 0 <= k < n && Sends(After(steps, k, p), steps[k]) ==> After(steps, k, p).adrift == {}
    ensures |After(steps, n, p).active| <= 1
  {
    if n > 0 {
      OneUpTo(steps, n - 1, p);
      AfterNext(steps, n - 1, p);
      var w := After(steps, n - 1, p);
      if Sends(w, steps[n - 1]) {
        InvRun(steps[..n - 1], p);
        SendAdds(w, steps[n - 1], p);
      } else {
        OnlySendsAdd(w, steps[n - 1], p);
        SmallerSet(After(steps, n, p).active, w.active);
      }
    }
  }

  /** Without a dropped reply nothing is ever adrift, and so at most one request is worked on. */
  lemma {:induction false} FlaggedLossesOnly(steps: seq<Step>, p: Profile)
    requires forall k :: 0 <= k < |steps| && steps[k].End? ==> !steps[k].ending.Dropped?
    ensures var w := Exec(Prepared(), steps, p); w.adrift == {} && |w.active| <= 1
    decreases |steps|
  {
    InvRun(steps, p);
    if steps != [] {
      var front := steps[..|steps| - 1];
      assert forall k :: 0 <= k < |front| ==> front[k] == steps[k];
      FlaggedLossesOnly(front, p);
      NothingDrifts(Exec(Prepared(), front, p), steps[|steps| - 1], p);
    }
    var w := Exec(Prepared(), steps, p);
    assert Watched(w) == w.active;
  }

  lemma NothingDrifts(w: World, step: Step, p: Profile)
    requires w.adrift == {} && (step.End? ==> !step.ending.Dropped?)
    ensures Apply(w, step, p).adrift == {}
  {
  }

  lemma ExecThen(steps: seq<Step>, step: Step, p: Profile)
    ensures Exec(Prepared(), steps + [step], p) == Apply(Exec(Prepared(), steps, p), step, p)
  {
    assert (steps + [step])[..|steps|] == steps;
  }

  const TWO := Profile(2, 2, 1)

  /** A run whose first reply is truncated: the error clauses do not name that loss, so the request is
      settled as over and the next one is sent while the upstream still works on the first. */
  const Truncating := [Start(Index)] + [Launch(Saved)] + [Begin(0, true, 1, Saved)] + [Send(0)]
  const Truncated := Truncating + [End(0, Dropped)] + [Step.Settle(0, Saved)] + [Begin(1, true, 1, Saved)] + [Send(1)]

  function OneSent(handlers: map<nat, Stage>): World {
    var journal := Journal(1, 1, 0, 0, 0, 0, true, false, Running);
    World(Disk(journal, false), Alive(journal, Index, Working, 0, handlers), {1}, {}, 1, 1, 1)
  }

  lemma FirstIsSent()
    ensures Exec(Prepared(), Truncating, TWO) == OneSent(map[0 := Sent(1)])
  {
    var s1 := [Start(Index)];
    var s2 := s1 + [Launch(Saved)];
    var s3 := s2 + [Begin(0, true, 1, Saved)];
    assert Exec(Prepared(), s1, TWO) == Apply(Prepared(), Start(Index), TWO) by { assert s1[..0] == []; }
    ExecThen(s1, Launch(Saved), TWO);
    ExecThen(s2, Begin(0, true, 1, Saved), TWO);
    ExecThen(s3, Send(0), TWO);
    IndexLaunches();
    FirstGoesOut();
  }

  function Launched(): World {
    var journal := Journal(0, 0, 0, 0, 0, 0, false, false, Running);
    World(Disk(journal, false), Alive(journal, Index, Working, 0, map[]), {}, {}, 0, 0, 1)
  }

  lemma IndexLaunches()
    ensures Apply(Apply(Prepared(), Start(Index), TWO), Launch(Saved), TWO) == Launched()
  {
    var journal := Journal(0, 0, 0, 0, 0, 0, false, false, NotRun);
    assert Apply(Prepared(), Start(Index), TWO)
        == World(Disk(journal, false), Alive(journal, Index, Starting, 0, map[]), {}, {}, 0, 0, 0);
  }

  lemma FirstGoesOut()
    ensures Apply(Apply(Launched(), Begin(0, true, 1, Saved), TWO), Send(0), TWO) == OneSent(map[0 := Sent(1)])
  {
    var journal := Journal(1, 1, 0, 0, 0, 0, true, false, Running);
    var w := World(Disk(journal, false), Alive(journal, Index, Working, 0, map[0 := Ready(1)]), {}, {}, 0, 0, 1);
    assert Apply(Launched(), Begin(0, true, 1, Saved), TWO) == w by { assert map[][0 := Ready(1)] == map[0 := Ready(1)]; }
    assert w.active + {1} == {1} && w.process.handlers[0 := Sent(1)] == map[0 := Sent(1)];
  }

  lemma DroppedReplyOverlaps()
    ensures var w := Exec(Prepared(), Truncated, TWO);
            w.active == {1, 2} && w.adrift == {1} && !w.disk.journal.uncertain && w.process.Alive?
  {
    FirstIsSent();
    var s5 := Truncating + [End(0, Dropped)];
    var s6 := s5 + [Step.Settle(0, Saved)];
    var s7 := s6 + [Begin(1, true, 1, Saved)];
    ExecThen(Truncating, End(0, Dropped), TWO);
    ExecThen(s5, Step.Settle(0, Saved), TWO);
    ExecThen(s6, Begin(1, true, 1, Saved), TWO);
    ExecThen(s7, Send(1), TWO);
    DropSettles();
    SecondIsSent();
  }

  function AfterDrop(): World {
    var journal := Journal(1, 1, 0, 0, 0, 0, false, false, Running);
    World(Disk(journal, false), Alive(journal, Index, Working, 0, map[]), {1}, {1}, 1, 1, 1)
  }

  lemma DropSettles()
    ensures Apply(Apply(OneSent(map[0 := Sent(1)]), End(0, Dropped), TWO), Step.Settle(0, Saved), TWO) == AfterDrop()
  {
    var w4 := OneSent(map[0 := Sent(1)]);
    assert w4.process.handlers[0 := Settling(false)] == map[0 := Settling(false)];
    assert w4.adrift + (w4.active * {1}) == {1};
    assert Apply(w4, End(0, Dropped), TWO) == OneSent(map[0 := Settling(false)]).(adrift := {1});
    assert map[0 := Settling(false)] - {0} == map[];
  }

  lemma SecondIsSent()
    ensures var w := Apply(Apply(AfterDrop(), Begin(1, true, 1, Saved), TWO), Send(1), TWO);
            w.active == {1, 2} && w.adrift == {1} && !w.disk.journal.uncertain && w.process.Alive?
  {
    var journal := Journal(2, 2, 0, 0, 0, 0, true, false, Running);
    var w7 := Apply(AfterDrop(), Begin(1, true, 1, Saved), TWO);
    assert w7 == World(Disk(journal, false), Alive(journal, Index, Working, 0, map[1 := Ready(1)]), {1}, {1}, 1, 1, 1);
    assert {1} + {2} == {1, 2};
  }

  /** Uncertainty, once on disk, is never taken back. */
  lemma {:induction false} UncertainIsSticky(w: World, steps: seq<Step>, p: Profile)
    requires Inv(w, p) && w.disk.journal.uncertain
    ensures Exec(w, steps, p).disk.journal.uncertain && Inv(Exec(w, steps, p), p)
    decreases |steps|
  {
    if steps != [] {
      UncertainIsSticky(w, steps[..|steps| - 1], p);
      InvStep(Exec(w, steps[..|steps| - 1], p), steps[|steps| - 1], p);
      UncertainStays(Exec(w, steps[..|steps| - 1], p), steps[|steps| - 1], p);
    }
  }

  lemma UncertainStays(w: World, step: Step, p: Profile)
    requires w.disk.journal.uncertain && (w.process.Alive? ==> w.process.state.uncertain)
    ensures Apply(w, step, p).disk.journal.uncertain
  {
  }

  /** A process that dies with a request reserved, sent or unsettled, or while its index worker runs,
      leaves a journal that no later run accepts: nothing is ever sent or indexed again. */
  lemma CrashIsFinal(before: seq<Step>, after: seq<Step>, p: Profile)
    requires var w := Exec(Prepared(), before, p);
             && w.process.Alive?
             && (w.process.handlers != map[] || (w.process.action.Index? && w.process.phase.Working?))
    ensures var w := Exec(Prepared(), before, p);
            var dead := Apply(w, Crash, p);
            && !Verified(dead.disk.journal, p)
            && Exec(dead, after, p).disk == w.disk && Exec(dead, after, p).process.Dead?
            && Exec(dead, after, p).sentRequests == w.sentRequests && Exec(dead, after, p).indexStarts == w.indexStarts
  {
    InvRun(before, p);
    var w := Exec(Prepared(), before, p);
    if w.process.handlers != map[] {
      var h :| h in w.process.handlers;
      assert GoodStage(w.process.handlers[h], w);
    }
    StaysDead(Apply(w, Crash, p), after, p);
  }

  lemma {:induction false} StaysDead(w: World, steps: seq<Step>, p: Profile)
    requires w.process.Dead? && !Verified(w.disk.journal, p)
    ensures var w' := Exec(w, steps, p);
            && w'.process.Dead? && w'.disk == w.disk && w'.sentRequests == w.sentRequests
            && w'.indexStarts == w.indexStarts && w'.active <= w.active
    decreases |steps|
  {
    if steps != [] {
      StaysDead(w, steps[..|steps| - 1], p);
    }
  }
}
