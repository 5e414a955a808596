/** When the pilot's journal says that the index is complete, over every run. */
module PilotOutcome {
  import opened Results
  import opened Pilot

  // ----- saves

  /** The save a step attempts, if it takes effect at all. */
  function SavingOf(w: World, step: Step, p: Profile): Option<Saving>
    requires w.process.Alive?
  {
    match step
    case Begin(h, valid, size, saving) =>
      if h !in w.process.handlers && Admits(w.process.state, p, valid, size) then Some(saving) else None
    case Settle(h, saving) =>
      if h in w.process.handlers && w.process.handlers[h].Settling? then Some(saving) else None
    case Launch(saving) => if w.process.phase.Starting? && w.process.action.Index? then Some(saving) else None
    case CountFailure(saving) => Some(saving)
    case Close(saving) => if w.process.phase.Judged? then Some(saving) else None
    case _ => None
  }

  /** Whatever is saved is the state in memory, and nothing else touches the disk. */
  lemma SaveLaw(w: World, step: Step, p: Profile)
    requires w.process.Alive?
    ensures var w' := Apply(w, step, p);
            match SavingOf(w, step, p) {
              case None => w'.disk == w.disk
              case Some(saving) => w'.process.Alive? && w'.disk == Write(w.disk, w'.process.state, saving)
            }
  {
  }

  lemma DeadLaw(w: World, step: Step, p: Profile)
    requires w.process.Dead?
    ensures var w' := Apply(w, step, p);
            && w'.disk == w.disk
            && (w'.process.Alive? ==>
                  && step.Start? && Verified(w.disk.journal, p)
                  && w.disk.journal.index == (if step.action.Index? then NotRun else Complete)
                  && w'.process == Alive(w.disk.journal, step.action, Starting, w.disk.journal.failedRequests, map[]))
  {
  }

  predicate Launches(w: World, step: Step)
    requires w.process.Alive?
  {
    step.Launch? && w.process.phase.Starting? && w.process.action.Index?
  }

  predicate Closes(w: World, step: Step)
    requires w.process.Alive?
  {
    step.Close? && w.process.phase.Judged?
  }

  /** What a step does to the parts of a process that decide its outcome. */
  lemma OutcomeLaw(w: World, step: Step, p: Profile)
    requires w.process.Alive? && Apply(w, step, p).process.Alive?
    ensures var a, b := w.process, Apply(w, step, p).process;
            && b.action == a.action && b.failuresBefore == a.failuresBefore
            && b.state.failedRequests == a.state.failedRequests + (if step.CountFailure? then 1 else 0)
            && b.state.index == (if Launches(w, step) then Running
                                 else if Closes(w, step) && a.action.Index? then
                                   if a.phase.success then Complete else Failed
                                 else a.state.index)
            && b.phase == (if step.Launch? && a.phase.Starting? then
                             if a.action.Query? || WriteSucceeds(w.disk, step.saving) then Working else Judged(false)
                           else if step.Judge? && a.phase.Working? then
                             Judged(step.success && a.state.failedRequests == a.failuresBefore && !a.state.uncertain)
                           else if Closes(w, step) then Done
                           else a.phase)
  {
  }

  // ----- what the outcome on disk says of the process

  predicate Marked(w: World) {
    w.process.Alive? ==>
      && (w.disk.journal.index == Complete ==> w.process.state.index == Complete)
      && (w.disk.journal.index != NotRun ==> w.process.state.index != NotRun)
      && (w.process.action.Query? ==> w.process.state.index == Complete && w.disk.journal.index == Complete)
      && (w.process.action.Index? && w.process.state.index == Complete ==> w.process.phase.Done?)
      && (w.process.action.Index? && w.process.phase.Working? ==>
            w.process.state.index == w.disk.journal.index == Running)
  }

  lemma MarkedStep(w: World, step: Step, p: Profile)
    requires Marked(w)
    ensures Marked(Apply(w, step, p))
    ensures w.disk.journal.index == Complete ==> Apply(w, step, p).disk.journal.index == Complete
    ensures w.disk.journal.index != NotRun ==> Apply(w, step, p).disk.journal.index != NotRun
  {
    var w' := Apply(w, step, p);
    if w.process.Alive? {
      SaveLaw(w, step, p);
      if w'.process.Alive? { OutcomeLaw(w, step, p); }
    } else {
      DeadLaw(w, step, p);
    }
  }

  lemma {:induction false} MarkedUpTo(steps: seq<Step>, n: nat, p: Profile)
    requires n <= |steps|
    ensures Marked(After(steps, n, p))
  {
    if n > 0 {
      MarkedUpTo(steps, n - 1, p);
      AfterNext(steps, n - 1, p);
      MarkedStep(After(steps, n - 1, p), steps[n - 1], p);
    }
  }

  lemma {:induction false} OutcomeStands(steps: seq<Step>, m: nat, n: nat, p: Profile)
    requires m <= n <= |steps|
    ensures After(steps, m, p).disk.journal.index == Complete ==> After(steps, n, p).disk.journal.index == Complete
    ensures After(steps, m, p).disk.journal.index != NotRun ==> After(steps, n, p).disk.journal.index != NotRun
  {
    if m < n {
      OutcomeStands(steps, m, n - 1, p);
      MarkedUpTo(steps, n - 1, p);
      AfterNext(steps, n - 1, p);
      MarkedStep(After(steps, n - 1, p), steps[n - 1], p);
    }
  }

  // ----- the life of one process

  /** A process begun by step `i` is alive up to state `n`. */
  predicate Lives(steps: seq<Step>, i: nat, n: nat, p: Profile) {
    && i < n <= |steps| && steps[i].Start? && After(steps, i, p).process.Dead?
    && forall m :: i < m <= n ==> After(steps, m, p).process.Alive?
  }

  lemma {:induction false} BornAt(steps: seq<Step>, n: nat, p: Profile) returns (i: nat)
    requires n <= |steps| && After(steps, n, p).process.Alive?
    ensures Lives(steps, i, n, p)
  {
    AfterNext(steps, n - 1, p);
    if After(steps, n - 1, p).process.Alive? {
      i := BornAt(steps, n - 1, p);
    } else {
      i := n - 1;
      DeadLaw(After(steps, i, p), steps[i], p);
    }
  }

  predicate NoFailures(steps: seq<Step>, i: nat, n: nat) {
    forall m :: i < m < n && m < |steps| ==> !steps[m].CountFailure?
  }

  /** A process keeps its action, and counts the failures of its own life. */
  lemma {:induction false} LifeCounts(steps: seq<Step>, i: nat, n: nat, p: Profile)
    requires Lives(steps, i, n, p)
    ensures var a := After(steps, n, p).process;
            && a.action == steps[i].action && a.state.failedRequests >= a.failuresBefore
            && (a.state.failedRequests == a.failuresBefore <==> NoFailures(steps, i, n))
    decreases n
  {
    AfterNext(steps, n - 1, p);
    if n == i + 1 {
      DeadLaw(After(steps, i, p), steps[i], p);
    } else {
      LifeCounts(steps, i, n - 1, p);
      OutcomeLaw(After(steps, n - 1, p), steps[n - 1], p);
      assert NoFailures(steps, i, n) <==> NoFailures(steps, i, n - 1) && !steps[n - 1].CountFailure?;
    }
  }

  /** The index process of step `i` was judged successful by step `j`: its worker succeeded, no model
      request of its life had failed, and none was uncertain. */
  predicate JudgedWell(steps: seq<Step>, i: nat, j: nat, p: Profile) {
    && Lives(steps, i, j, p) && j < |steps| && steps[i] == Start(Index) && steps[j] == Judge(true)
    && After(steps, j, p).process.phase.Working? && !After(steps, j, p).process.state.uncertain
    && NoFailures(steps, i, j)
  }

  /** Step `k` closes the process, whose life reaches state `n`. */
  predicate ClosedWell(steps: seq<Step>, i: nat, j: nat, k: nat, n: nat, p: Profile) {
    JudgedWell(steps, i, j, p) && j < k < n && Lives(steps, i, n, p) && Closes(After(steps, k, p), steps[k])
  }

  /** Step `m` saves the state in memory. */
  predicate Saves(steps: seq<Step>, m: nat, p: Profile) {
    && m < |steps| && After(steps, m, p).process.Alive? && !After(steps, m, p).disk.pending
    && SavingOf(After(steps, m, p), steps[m], p).Some? && !SavingOf(After(steps, m, p), steps[m], p).value.Unsaved?
  }

  /** The index was judged successful, closed, and its outcome saved while its process lived. */
  predicate Completed(steps: seq<Step>, i: nat, j: nat, k: nat, m: nat, p: Profile) {
    k <= m && ClosedWell(steps, i, j, k, m + 1, p) && Saves(steps, m, p)
  }

  // ----- from the outcome back to the judgement

  lemma {:induction false} JudgedAt(steps: seq<Step>, i: nat, n: nat, p: Profile) returns (j: nat)
    requires Lives(steps, i, n, p) && steps[i] == Start(Index) && After(steps, n, p).process.phase == Judged(true)
    ensures j < n && JudgedWell(steps, i, j, p)
    decreases n
  {
    j := n - 1;
    AfterNext(steps, n - 1, p);
    if n == i + 1 {
      DeadLaw(After(steps, i, p), steps[i], p);
    } else {
      var w := After(steps, n - 1, p);
      OutcomeLaw(w, steps[n - 1], p);
      if w.process.phase == Judged(true) {
        j := JudgedAt(steps, i, n - 1, p);
      } else {
        LifeCounts(steps, i, n - 1, p);
      }
    }
  }

  lemma {:induction false} ClosedAt(steps: seq<Step>, i: nat, n: nat, p: Profile) returns (j: nat, k: nat)
    requires Lives(steps, i, n, p) && steps[i] == Start(Index) && After(steps, n, p).process.state.index == Complete
    ensures ClosedWell(steps, i, j, k, n, p)
    decreases n
  {
    j, k := n - 1, n - 1;
    AfterNext(steps, n - 1, p);
    if n == i + 1 {
      DeadLaw(After(steps, i, p), steps[i], p);
    } else {
      var w := After(steps, n - 1, p);
      LifeCounts(steps, i, n - 1, p);
      OutcomeLaw(w, steps[n - 1], p);
      if w.process.state.index == Complete {
        j, k := ClosedAt(steps, i, n - 1, p);
      } else {
        j := JudgedAt(steps, i, n - 1, p);
      }
    }
  }

  lemma {:induction false} CompletedAt(steps: seq<Step>, n: nat, p: Profile) returns (i: nat, j: nat, k: nat, m: nat)
    requires n <= |steps| && After(steps, n, p).disk.journal.index == Complete
    ensures m < n && Completed(steps, i, j, k, m, p)
  {
    AfterNext(steps, n - 1, p);
    var w := After(steps, n - 1, p);
    if w.disk.journal.index == Complete {
      i, j, k, m := CompletedAt(steps, n - 1, p);
    } else {
      if w.process.Dead? { DeadLaw(w, steps[n - 1], p); } else { SaveLaw(w, steps[n - 1], p); }
      m := n - 1;
      i := BornAt(steps, n, p);
      LifeCounts(steps, i, n, p);
      MarkedUpTo(steps, m, p);
      NotByQuery(steps, i, n, p);
      j, k := ClosedAt(steps, i, n, p);
    }
  }

  lemma NotByQuery(steps: seq<Step>, i: nat, n: nat, p: Profile)
    requires Lives(steps, i, n, p) && After(steps, n - 1, p).disk.journal.index != Complete
    requires After(steps, n - 1, p).process.Alive?
    ensures steps[i] == Start(Index)
  {
    MarkedUpTo(steps, n - 1, p);
    if n - 1 > i { LifeCounts(steps, i, n - 1, p); }
  }

  // ----- and forward again

  /** After a good judgement the process is judged, or closed and complete. */
  lemma {:induction false} GoodAfter(steps: seq<Step>, i: nat, j: nat, n: nat, p: Profile)
    requires JudgedWell(steps, i, j, p) && j < n && Lives(steps, i, n, p)
    ensures var a := After(steps, n, p).process;
            a.phase == Judged(true) || (a.phase.Done? && a.state.index == Complete)
    decreases n
  {
    AfterNext(steps, n - 1, p);
    LifeCounts(steps, i, n - 1, p);
    OutcomeLaw(After(steps, n - 1, p), steps[n - 1], p);
    if n > j + 1 { GoodAfter(steps, i, j, n - 1, p); }
  }

  lemma {:induction false} DoneAfter(steps: seq<Step>, i: nat, j: nat, k: nat, n: nat, p: Profile)
    requires ClosedWell(steps, i, j, k, n, p)
    ensures After(steps, n, p).process.phase.Done? && After(steps, n, p).process.state.index == Complete
    decreases n
  {
    AfterNext(steps, n - 1, p);
    GoodAfter(steps, i, j, n - 1, p);
    GoodAfter(steps, i, j, n, p);
    OutcomeLaw(After(steps, n - 1, p), steps[n - 1], p);
    if n > k + 1 { DoneAfter(steps, i, j, k, n - 1, p); }
  }

  lemma CompletedStands(steps: seq<Step>, i: nat, j: nat, k: nat, m: nat, p: Profile)
    requires Completed(steps, i, j, k, m, p)
    ensures After(steps, |steps|, p).disk.journal.index == Complete
  {
    DoneAfter(steps, i, j, k, m + 1, p);
    AfterNext(steps, m, p);
    SaveLaw(After(steps, m, p), steps[m], p);
    OutcomeStands(steps, m + 1, |steps|, p);
  }

  /** The journal on disk says that the index is complete exactly when an index process was judged
      successful (its worker was, no model request failed in its life before, none was uncertain then),
      was closed, and its outcome was saved while it lived. */
  lemma CompleteWhen(steps: seq<Step>, p: Profile)
    ensures Exec(Prepared(), steps, p).disk.journal.index == Complete <==>
            exists i, j, k, m :: Completed(steps, i, j, k, m, p)
  {
    assert steps[..|steps|] == steps;
    if Exec(Prepared(), steps, p).disk.journal.index == Complete {
      var i, j, k, m := CompletedAt(steps, |steps|, p);
    }
    if i, j, k, m :| Completed(steps, i, j, k, m, p) {
      CompletedStands(steps, i, j, k, m, p);
    }
  }

  // ----- queries

  predicate QueryStarts(steps: seq<Step>, n: nat, p: Profile) {
    && n < |steps| && steps[n] == Start(Query)
    && After(steps, n, p).process.Dead? && After(steps, n + 1, p).process.Alive?
  }

  /** At most one index process ever gets to work. */
  lemma {:induction false} OneWorks(steps: seq<Step>, i: nat, j: nat, h: nat, c: nat, p: Profile)
    requires Lives(steps, i, j, p) && steps[i] == Start(Index) && After(steps, j, p).process.phase.Working?
    requires Lives(steps, h, c, p) && steps[h] == Start(Index) && After(steps, c, p).process.phase.Working?
    ensures h <= i
  {
    if i < h {
      LifeCounts(steps, i, j, p);
      MarkedUpTo(steps, j, p);
      assert j <= h;
      OutcomeStands(steps, j, h, p);
      AfterNext(steps, h, p);
      DeadLaw(After(steps, h, p), steps[h], p);
    }
  }

  /** Once a model request fails while the index works, no query ever starts. */
  lemma FailureEndsQueries(steps: seq<Step>, h: nat, c: nat, n: nat, p: Profile)
    requires Lives(steps, h, c, p) && steps[h] == Start(Index) && After(steps, c, p).process.phase.Working?
    requires c < |steps| && steps[c].CountFailure?
    ensures !QueryStarts(steps, n, p)
  {
    if QueryStarts(steps, n, p) {
      AfterNext(steps, n, p);
      DeadLaw(After(steps, n, p), steps[n], p);
      var i, j, k, m := CompletedAt(steps, n, p);
      if i < h {
        OneWorks(steps, i, j, h, c, p);
      } else if h < i {
        OneWorks(steps, h, c, i, j, p);
      } else if j < c {
        GoodAfter(steps, i, j, c, p);
      }
    }
  }

  /** A reserved request is sent at most once; nothing else is ever sent. */
  lemma SentOnce(w: World, h: nat, step: Step, p: Profile)
    requires w.process.Alive?
    ensures Apply(w, step, p).sentRequests != w.sentRequests <==>
            step.Send? && step.handler in w.process.handlers && w.process.handlers[step.handler].Ready?
    ensures h in w.process.handlers && w.process.handlers[h].Ready? ==>
            var w' := Apply(w, Send(h), p);
            && w'.process.handlers[h] == Sent(w.sentRequests + 1) && w.sentRequests + 1 in w'.active
            && w'.sentBytes == w.sentBytes + w.process.handlers[h].size && Apply(w', Send(h), p) == w'
  {
  }

  /** A request whose connection failed, before or after it was sent, leaves the journal uncertain once
      its handler has settled, and uncertain on disk once that is saved; nothing is then reserved. */
  lemma UnansweredIsFlagged(w: World, h: nat, saving: Saving, more: nat, valid: bool, size: nat, p: Profile)
    requires w.process.Alive? && h in w.process.handlers && !w.process.handlers[h].Settling?
    ensures var failed := Apply(w, if w.process.handlers[h].Ready? then Unreachable(h) else End(h, Lost), p);
            var w' := Apply(failed, Settle(h, saving), p);
            && w'.process.Alive? && w'.process.state.uncertain && !w'.process.state.inflight
            && h !in w'.process.handlers && w'.active == w.active
            && (saving == Saved && !w.disk.pending ==> w'.disk.journal.uncertain)
            && Apply(w', Begin(more, valid, size, Saved), p) == w'
  {
  }
}
