/** When a claim comes out, as against when it says it was made.

    A take reads the clock once, when it begins, and publishes later; what lies between is the time
    the clock moved from one of these steps to the other. */
module ExchangeTiming {
  import opened Results
  import opened Jobs
  import opened Snapshot
  import opened Exchange
  import opened ExchangeSafety

  /** What the clock reads after these steps. */
  function Clock(steps: seq<Step>): int
    decreases |steps|
  {
    if steps == [] then 0
    else if steps[|steps| - 1].Tick? then steps[|steps| - 1].clock
    else Clock(steps[..|steps| - 1])
  }

  /** The clock is never set back. */
  predicate Forward(steps: seq<Step>) {
    forall k :: 0 <= k < |steps| && steps[k].Tick? ==> Clock(steps[..k]) <= steps[k].clock
  }

  function Elapsed(steps: seq<Step>, i: nat, k: nat): int
    requires i <= k <= |steps|
  {
    Clock(steps[..k]) - Clock(steps[..i])
  }

  lemma ClockOther(s: State, step: Step, bound: Bound)
    requires !step.Tick?
    ensures Apply(s, step, bound).clock == s.clock
  {
  }

  lemma {:induction false} ClockRuns(steps: seq<Step>, bound: Bound)
    ensures Exec(Initial, steps, bound).clock == Clock(steps)
    decreases |steps|
  {
    if steps != [] {
      var front, last := steps[..|steps| - 1], steps[|steps| - 1];
      ClockRuns(front, bound);
      if !last.Tick? { ClockOther(Exec(Initial, front, bound), last, bound); }
    }
  }

  lemma {:induction false} ClockAdvances(steps: seq<Step>, i: nat, k: nat)
    requires Forward(steps) && i <= k <= |steps|
    ensures Clock(steps[..i]) <= Clock(steps[..k])
    decreases k
  {
    if i < k {
      ClockAdvances(steps, i, k - 1);
      assert steps[..k][..k - 1] == steps[..k - 1];
    }
  }

  // ----- where a take began and where it published

  /** The step at which this take began. */
  predicate BeganAt(steps: seq<Step>, i: nat, pid: nat, job: string, bound: Bound) {
    i < |steps| && steps[i] == Take(pid, BeginTake(job)) && pid !in Exec(Initial, steps[..i], bound).takers
  }

  /** The take that began at step `i` published this claim at step `k`. */
  predicate PublishedAt(steps: seq<Step>, i: nat, k: nat, e: Event, bound: Bound) {
    && i < k < |steps| && steps[k].Take? && steps[k].take.PublishClaim?
    && e.ClaimPublished? && BeganAt(steps, i, steps[k].pid, e.job, bound)
    && e.claim.claimedAt == Clock(steps[..i]) && e.at == Clock(steps[..k])
  }

  function NowOf(t: Taker): Option<int> {
    if t.Returned? || t.Raised? then None else Some(t.now)
  }

  predicate Dated(t: Taker, steps: seq<Step>, i: nat, pid: nat, bound: Bound) {
    NowOf(t).Some? ==> BeganAt(steps, i, pid, t.job, bound) && NowOf(t) == Some(Clock(steps[..i]))
  }

  ghost predicate AllDated(steps: seq<Step>, bound: Bound) {
    var s := Exec(Initial, steps, bound);
    && (forall pid :: pid in s.takers ==> exists i: nat :: Dated(s.takers[pid], steps, i, pid, bound))
    && LogDated(s.log, steps, bound)
  }

  ghost predicate HasTimes(steps: seq<Step>, e: Event, bound: Bound) {
    exists i: nat, k: nat :: PublishedAt(steps, i, k, e, bound)
  }

  lemma DatedStays(t: Taker, front: seq<Step>, step: Step, i: nat, pid: nat, bound: Bound)
    requires Dated(t, front, i, pid, bound)
    ensures Dated(t, front + [step], i, pid, bound)
  {
    if i < |front| { assert (front + [step])[..i] == front[..i]; }
  }

  lemma TimesStay(front: seq<Step>, step: Step, e: Event, bound: Bound)
    requires HasTimes(front, e, bound)
    ensures HasTimes(front + [step], e, bound)
  {
    var i: nat, k: nat :| PublishedAt(front, i, k, e, bound);
    assert (front + [step])[..i] == front[..i] && (front + [step])[..k] == front[..k];
    assert PublishedAt(front + [step], i, k, e, bound);
  }

  /** A take keeps its job and the time it read. */
  lemma TakeKeepsTime(s: State, pid: nat, step: TakeStep, bound: Bound)
    requires pid in s.takers
    ensures var s' := ApplyTake(s, pid, step, bound);
            && pid in s'.takers && s'.takers[pid].job == s.takers[pid].job
            && (NowOf(s'.takers[pid]).Some? ==> NowOf(s'.takers[pid]) == NowOf(s.takers[pid]))
  {
  }

  lemma TakeBegins(s: State, pid: nat, step: TakeStep, bound: Bound)
    requires pid !in s.takers && pid in ApplyTake(s, pid, step, bound).takers
    ensures step.BeginTake? && ApplyTake(s, pid, step, bound).takers[pid] == Began(step.job, s.clock)
  {
  }

  lemma TakersDated(front: seq<Step>, step: Step, bound: Bound, pid: nat)
    requires AllDated(front, bound) && pid in Exec(Initial, front + [step], bound).takers
    ensures exists i: nat :: Dated(Exec(Initial, front + [step], bound).takers[pid], front + [step], i, pid, bound)
  {
    var s, steps := Exec(Initial, front, bound), front + [step];
    assert steps[..|front|] == front;
    var s' := Exec(Initial, steps, bound);
    Locality(s, step, bound);
    if pid in s.takers {
      var i: nat :| Dated(s.takers[pid], front, i, pid, bound);
      if step.Take? && step.pid == pid { TakeKeepsTime(s, pid, step.take, bound); }
      assert Dated(s'.takers[pid], front, i, pid, bound);
      DatedStays(s'.takers[pid], front, step, i, pid, bound);
    } else {
      TakeBegins(s, pid, step.take, bound);
      ClockRuns(front, bound);
      assert Dated(s'.takers[pid], steps, |front|, pid, bound);
    }
  }

  lemma ClaimIsNew(s: State, pid: nat, text: Text<Request>, bound: Bound)
    requires ApplyTake(s, pid, PublishClaim(text), bound).log != s.log
    ensures pid in s.takers && s.takers[pid].Made?
    ensures var t := s.takers[pid];
            ApplyTake(s, pid, PublishClaim(text), bound).log
            == s.log + [ClaimPublished(t.job, ClaimRecord(t, text, bound), t.second.request, s.clock)]
  {
  }

  lemma ClaimDated(front: seq<Step>, step: Step, bound: Bound, t: Taker, i: nat, text: Text<Request>)
    requires step.Take? && step.take == PublishClaim(text) && t.Made? && Dated(t, front, i, step.pid, bound)
    ensures HasTimes(front + [step], ClaimPublished(t.job, ClaimRecord(t, text, bound), t.second.request, Clock(front)), bound)
  {
    var steps := front + [step];
    assert steps[..i] == front[..i] && steps[..|front|] == front;
    assert PublishedAt(steps, i, |front|,
                       ClaimPublished(t.job, ClaimRecord(t, text, bound), t.second.request, Clock(front)), bound);
  }

  lemma NewClaimDated(front: seq<Step>, step: Step, bound: Bound)
    requires AllDated(front, bound) && step.Take? && step.take.PublishClaim?
    requires ApplyTake(Exec(Initial, front, bound), step.pid, step.take, bound).log != Exec(Initial, front, bound).log
    ensures var s := Exec(Initial, front, bound);
            var log := ApplyTake(s, step.pid, step.take, bound).log;
            |log| == |s.log| + 1 && HasTimes(front + [step], log[|s.log|], bound)
  {
    var s := Exec(Initial, front, bound);
    ClaimIsNew(s, step.pid, step.take.text, bound);
    var t := s.takers[step.pid];
    var i: nat :| Dated(t, front, i, step.pid, bound);
    ClockRuns(front, bound);
    ClaimDated(front, step, bound, t, i, step.take.text);
  }

  /** What a step appends to the log: nothing, a claim with its times, or something else. */
  lemma LogGrows(front: seq<Step>, step: Step, bound: Bound)
    requires AllDated(front, bound)
    ensures var s, s' := Exec(Initial, front, bound), Exec(Initial, front + [step], bound);
            || s'.log == s.log
            || (|s'.log| == |s.log| + 1 && s'.log[..|s.log|] == s.log
                && (s'.log[|s.log|].ClaimPublished? ==> HasTimes(front + [step], s'.log[|s.log|], bound)))
  {
    var s, steps := Exec(Initial, front, bound), front + [step];
    assert steps[..|front|] == front;
    if step.Take? && step.take.PublishClaim? {
      if Exec(Initial, steps, bound).log != s.log {
        NewClaimDated(front, step, bound);
        ExtendsStep(s, step, bound);
      }
    } else {
      OtherLog(s, step, bound);
    }
  }

  ghost predicate LogDated(log: seq<Event>, steps: seq<Step>, bound: Bound) {
    forall n :: 0 <= n < |log| && log[n].ClaimPublished? ==> HasTimes(steps, log[n], bound)
  }

  lemma LogStaysDated(log: seq<Event>, front: seq<Step>, step: Step, bound: Bound)
    requires LogDated(log, front, bound)
    ensures LogDated(log, front + [step], bound)
  {
    forall n | 0 <= n < |log| && log[n].ClaimPublished? ensures HasTimes(front + [step], log[n], bound) {
      TimesStay(front, step, log[n], bound);
    }
  }

  lemma LogNextDated(front: seq<Step>, step: Step, bound: Bound)
    requires AllDated(front, bound)
    ensures LogDated(Exec(Initial, front + [step], bound).log, front + [step], bound)
  {
    var log, log' := Exec(Initial, front, bound).log, Exec(Initial, front + [step], bound).log;
    LogGrows(front, step, bound);
    LogStaysDated(log, front, step, bound);
    if log' != log {
      assert log' == log + [log'[|log|]];
      LogAppended(log, log'[|log|], front + [step], bound);
    }
  }

  lemma LogAppended(log: seq<Event>, e: Event, steps: seq<Step>, bound: Bound)
    requires LogDated(log, steps, bound) && (e.ClaimPublished? ==> HasTimes(steps, e, bound))
    ensures LogDated(log + [e], steps, bound)
  {
  }

  lemma {:induction false} RunDated(steps: seq<Step>, bound: Bound)
    ensures AllDated(steps, bound)
    decreases |steps|
  {
    if steps != [] {
      var front, last := steps[..|steps| - 1], steps[|steps| - 1];
      RunDated(front, bound);
      assert steps == front + [last];
      var s := Exec(Initial, steps, bound);
      forall pid | pid in s.takers ensures exists i: nat :: Dated(s.takers[pid], steps, i, pid, bound) {
        TakersDated(front, last, bound, pid);
      }
      LogNextDated(front, last, bound);
    }
  }

  // ----- the window of publication

  function AdmissionEnds(r: Request): int { r.created + AdmissionSeconds(r.kind) * 1000 }

  /** Every claim of a run is published by a take of its job, and comes out inside the admission
      allowance exactly when the clock moved, between these two steps, by no more than was left of
      the allowance when the take began, and not back beyond what had passed of it. It comes out by
      the expiry exactly when the clock moved by no more than was left until then, which is at least
      the caller and post-release time. */
  lemma OutInWindowWhen(steps: seq<Step>, bound: Bound, n: nat) returns (i: nat, k: nat)
    requires n < |Exec(Initial, steps, bound).log| && Exec(Initial, steps, bound).log[n].ClaimPublished?
    ensures var e := Exec(Initial, steps, bound).log[n];
            var q, made := e.inspected, e.claim.claimedAt;
            && PublishedAt(steps, i, k, e, bound)
            && q.created <= made <= AdmissionEnds(q)
            && (q.created <= e.at <= AdmissionEnds(q) <==>
                q.created - made <= Elapsed(steps, i, k) <= AdmissionEnds(q) - made)
            && (e.at <= q.expires <==> Elapsed(steps, i, k) <= q.expires - made)
            && q.expires - made >= (q.callerSeconds + q.postRelease) * 1000 > 0
  {
    RunDated(steps, bound);
    InvRun(steps, bound);
    ClaimWindow(steps, bound, n);
    var e := Exec(Initial, steps, bound).log[n];
    assert AdmittedInWindow(e, bound);
    assert HasTimes(steps, e, bound);
    i, k :| PublishedAt(steps, i, k, e, bound);
  }

  /** With a clock that is never set back, only the time that passed while the take was under way can
      bring its claim out of the window. */
  lemma LateWhen(steps: seq<Step>, bound: Bound, n: nat) returns (i: nat, k: nat)
    requires n < |Exec(Initial, steps, bound).log| && Exec(Initial, steps, bound).log[n].ClaimPublished?
    requires Forward(steps)
    ensures var e := Exec(Initial, steps, bound).log[n];
            var q, made := e.inspected, e.claim.claimedAt;
            && PublishedAt(steps, i, k, e, bound) && 0 <= Elapsed(steps, i, k)
            && q.created <= e.at
            && (e.at > AdmissionEnds(q) <==> Elapsed(steps, i, k) > AdmissionEnds(q) - made)
            && (e.at > q.expires <==> Elapsed(steps, i, k) > q.expires - made)
  {
    i, k := OutInWindowWhen(steps, bound, n);
    ClockAdvances(steps, i, k);
  }
}
