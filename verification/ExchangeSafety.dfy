/** What every run of the owner exchange keeps. */
module ExchangeSafety {
  import opened Results
  import opened Base64
  import opened Jobs
  import opened Snapshot
  import opened Exchange

  // ----- one step

  /** A later state only adds to an earlier one: claims, results and outcomes never change. */
  predicate RepliesKept(s: State, later: State) {
    forall job :: job in s.replies ==>
      && job in later.replies
      && (s.replies[job].claim.Some? ==> later.replies[job].claim == s.replies[job].claim)
      && (s.replies[job].result.Some? ==> later.replies[job].result == s.replies[job].result)
  }

  predicate TakersKept(s: State, later: State) {
    forall p :: p in s.takers ==>
      && p in later.takers && later.takers[p].job == s.takers[p].job
      && (s.takers[p].Returned? || s.takers[p].Raised? ==> later.takers[p] == s.takers[p])
  }

  predicate WaitersKept(s: State, later: State) {
    forall w :: w in s.waiters ==>
      && w in later.waiters && later.waiters[w].request == s.waiters[w].request
      && (s.waiters[w].Delivered? || s.waiters[w].Gone? ==> later.waiters[w] == s.waiters[w])
  }

  predicate SubmissionsKept(s: State, later: State) {
    forall id :: id in s.submitted ==> id in later.submitted && later.submitted[id] == s.submitted[id]
  }

  predicate Extends(s: State, later: State) {
    && SubmissionsKept(s, later)
    && RepliesKept(s, later) && TakersKept(s, later) && WaitersKept(s, later)
    && (s.parked.Some? ==> later.parked == s.parked)
    && s.log <= later.log
  }

  /** A take step changes at most its own process and what it publishes. */
  lemma TakeTouches(s: State, pid: nat, step: TakeStep, bound: Bound) returns (taker: Taker)
    ensures var s' := ApplyTake(s, pid, step, bound);
            && s'.waiters == s.waiters && s'.parked == s.parked && s'.submitted == s.submitted
            && (s'.takers == s.takers || s'.takers == s.takers[pid := taker])
            && (s'.takers != s.takers && pid in s.takers ==>
                  taker.job == s.takers[pid].job && !s.takers[pid].Returned? && !s.takers[pid].Raised?)
  {
    var s' := ApplyTake(s, pid, step, bound);
    taker := if pid in s'.takers then s'.takers[pid] else Raised("");
    match step
    case BeginTake(job) =>
    case Prepare(first, copied, second) =>
    case MakeReply =>
    case PublishClaim(text) =>
    case Recheck =>
  }

  lemma TakePublishes(s: State, pid: nat, step: TakeStep, bound: Bound)
    ensures var s' := ApplyTake(s, pid, step, bound); RepliesKept(s, s') && s.log <= s'.log
  {
  }

  lemma ExtendsTake(s: State, pid: nat, step: TakeStep, bound: Bound)
    ensures Extends(s, ApplyTake(s, pid, step, bound))
    ensures forall p :: p != pid ==>
      && (p in ApplyTake(s, pid, step, bound).takers <==> p in s.takers)
      && (p in s.takers ==> ApplyTake(s, pid, step, bound).takers[p] == s.takers[p])
  {
    var s' := ApplyTake(s, pid, step, bound);
    var taker := TakeTouches(s, pid, step, bound);
    TakePublishes(s, pid, step, bound);
    TakersExtend(s, s', pid, taker);
  }

  lemma TakersExtend(s: State, s': State, pid: nat, taker: Taker)
    requires s'.takers == s.takers || s'.takers == s.takers[pid := taker]
    requires s'.takers != s.takers && pid in s.takers ==>
      taker.job == s.takers[pid].job && !s.takers[pid].Returned? && !s.takers[pid].Raised?
    ensures TakersKept(s, s')
  {
  }

  lemma WaitTouches(s: State, pid: nat, step: WaitStep, bound: Bound) returns (waiter: Waiter)
    ensures var s' := ApplyWait(s, pid, step, bound);
            && s'.takers == s.takers && s'.replies == s.replies && s'.parked == s.parked && s.log <= s'.log
            && s'.submitted == s.submitted
            && (s'.waiters == s.waiters || s'.waiters == s.waiters[pid := waiter])
            && (s'.waiters != s.waiters && pid in s.waiters ==>
                  waiter.request == s.waiters[pid].request && !s.waiters[pid].Delivered? && !s.waiters[pid].Gone?)
  {
    var s' := ApplyWait(s, pid, step, bound);
    if pid in s'.waiters { waiter := s'.waiters[pid]; } else { waiter := *; }
    match step
    case BeginWait(request) =>
    case PollResult =>
    case PollParked =>
    case Abandon =>
    case CancelWait =>
  }

  lemma WaitersExtend(s: State, s': State, pid: nat, waiter: Waiter)
    requires s'.waiters == s.waiters || s'.waiters == s.waiters[pid := waiter]
    requires s'.waiters != s.waiters && pid in s.waiters ==>
      waiter.request == s.waiters[pid].request && !s.waiters[pid].Delivered? && !s.waiters[pid].Gone?
    ensures WaitersKept(s, s')
  {
  }

  lemma ExtendsWait(s: State, pid: nat, step: WaitStep, bound: Bound)
    ensures Extends(s, ApplyWait(s, pid, step, bound))
    ensures ApplyWait(s, pid, step, bound).takers == s.takers && ApplyWait(s, pid, step, bound).replies == s.replies
    ensures forall p :: p != pid ==>
      && (p in ApplyWait(s, pid, step, bound).waiters <==> p in s.waiters)
      && (p in s.waiters ==> ApplyWait(s, pid, step, bound).waiters[p] == s.waiters[p])
  {
    var waiter := WaitTouches(s, pid, step, bound);
    WaitersExtend(s, ApplyWait(s, pid, step, bound), pid, waiter);
  }

  predicate Elsewhere(step: Step) {
    !step.Take? && !step.Wait?
  }

  /** A step of the clock, the controller or the submitter touches no take and no wait. */
  lemma OtherTouches(s: State, step: Step, bound: Bound)
    requires Elsewhere(step)
    ensures Apply(s, step, bound).takers == s.takers && Apply(s, step, bound).waiters == s.waiters
    ensures s.parked.Some? ==> Apply(s, step, bound).parked == s.parked
  {
  }

  lemma OtherPublishes(s: State, step: Step, bound: Bound)
    requires Elsewhere(step)
    ensures var s' := Apply(s, step, bound);
            RepliesKept(s, s') && SubmissionsKept(s, s') && s.log <= s'.log
  {
    match step
    case Submit(request) =>
    case Publish(job, result) =>
    case Offer(job) =>
    case _ =>
  }

  lemma ExtendsStep(s: State, step: Step, bound: Bound)
    ensures Extends(s, Apply(s, step, bound))
  {
    if step.Take? {
      ExtendsTake(s, step.pid, step.take, bound);
    } else if step.Wait? {
      ExtendsWait(s, step.pid, step.wait, bound);
    } else {
      OtherTouches(s, step, bound);
      OtherPublishes(s, step, bound);
    }
  }

  /** A step changes no take and no wait but the one it names. */
  lemma Locality(s: State, step: Step, bound: Bound)
    ensures forall p :: !(step.Take? && step.pid == p) ==>
      && (p in Apply(s, step, bound).takers <==> p in s.takers)
      && (p in s.takers ==> Apply(s, step, bound).takers[p] == s.takers[p])
    ensures forall p :: !(step.Wait? && step.pid == p) ==>
      && (p in Apply(s, step, bound).waiters <==> p in s.waiters)
      && (p in s.waiters ==> Apply(s, step, bound).waiters[p] == s.waiters[p])
  {
    if step.Take? {
      ExtendsTake(s, step.pid, step.take, bound);
      var taker := TakeTouches(s, step.pid, step.take, bound);
    } else if step.Wait? {
      ExtendsWait(s, step.pid, step.wait, bound);
    } else {
      OtherTouches(s, step, bound);
    }
  }

  /** The event is the only one logged, and what it counts is what the state gained. */
  ghost predicate Accounts(s: State, s': State, e: Event) {
    && s'.log == s.log + [e]
    && (forall t: Tally :: Expected(s, t) + One(Counts(t, e)) <= Expected(s', t) || t.Ends?)
    && (forall job :: Expected(s, Replies(job)) + One(Counts(Replies(job), e)) == Expected(s', Replies(job)))
    && (forall w :: One(Ended(s, w)) + One(Counts(Ends(w), e)) <= One(Ended(s', w)))
    && (e.Offered? ==> e.job !in s.replies)
    && (e.ReplyMade? ==> e.job in s'.replies)
    && (forall job :: job in s.replies ==> job in s'.replies)
  }

  predicate Ended(s: State, w: nat) {
    w in s.waiters && (s.waiters[w].Delivered? || s.waiters[w].Gone?)
  }

  /** The effect of one logged event on every tally. */
  lemma TallyEvent(s: State, s': State, e: Event)
    requires Tallied(s) && Accounts(s, s', e)
    ensures Tallied(s')
  {
    forall t: Tally
      ensures Count(s'.log, t) == Count(s.log, t) + One(Counts(t, e))
    {
      CountOne(s.log, e, t);
    }
    forall w
      ensures Count(s'.log, Ends(w)) <= One(w in s'.waiters && (s'.waiters[w].Delivered? || s'.waiters[w].Gone?))
    {
    }
    forall t: Tally
      ensures Count(s'.log, t) <= Expected(s', t)
    {
      if t.Ends? {
        assert Count(s'.log, Ends(t.waiter)) <= 1;
      }
    }
  }

  lemma TallyQuiet(s: State, s': State)
    requires Tallied(s) && s'.log == s.log && s'.replies == s.replies && WaitersKept(s, s')
    ensures Tallied(s')
  {
    forall t: Tally
      ensures Expected(s', t) == Expected(s, t)
    {
    }
    forall w
      ensures Count(s'.log, Ends(w)) <= One(w in s'.waiters && (s'.waiters[w].Delivered? || s'.waiters[w].Gone?))
    {
    }
  }

  lemma MakingAccounts(s: State, pid: nat, bound: Bound)
    requires ApplyTake(s, pid, MakeReply, bound).log != s.log
    ensures pid in s.takers && Accounts(s, ApplyTake(s, pid, MakeReply, bound), ReplyMade(s.takers[pid].job))
  {
  }

  lemma ClaimingAccounts(s: State, pid: nat, step: TakeStep, bound: Bound)
    requires step.PublishClaim? && ApplyTake(s, pid, step, bound).log != s.log
    ensures pid in s.takers && s.takers[pid].Made?
    ensures var t := s.takers[pid];
            Accounts(s, ApplyTake(s, pid, step, bound),
                     ClaimPublished(t.job, ClaimRecord(t, step.text, bound), t.second.request, s.clock))
  {
  }

  lemma TakeLogs(s: State, pid: nat, step: TakeStep, bound: Bound)
    requires ApplyTake(s, pid, step, bound).log != s.log
    ensures step.MakeReply? || step.PublishClaim?
  {
  }

  lemma QuietTake(s: State, pid: nat, step: TakeStep, bound: Bound)
    requires ApplyTake(s, pid, step, bound).log == s.log
    ensures ApplyTake(s, pid, step, bound).replies == s.replies
  {
  }

  lemma TallyTake(s: State, pid: nat, step: TakeStep, bound: Bound)
    requires Tallied(s)
    ensures Tallied(ApplyTake(s, pid, step, bound))
  {
    var s' := ApplyTake(s, pid, step, bound);
    if s'.log == s.log {
      QuietTake(s, pid, step, bound);
      ExtendsTake(s, pid, step, bound);
      TallyQuiet(s, s');
    } else {
      TakeLogs(s, pid, step, bound);
      if step.MakeReply? {
        MakingAccounts(s, pid, bound);
        TallyEvent(s, s', ReplyMade(s.takers[pid].job));
      } else {
        ClaimingAccounts(s, pid, step, bound);
        var t := s.takers[pid];
        TallyEvent(s, s', ClaimPublished(t.job, ClaimRecord(t, step.text, bound), t.second.request, s.clock));
      }
    }
  }

  lemma WaitEvent(s: State, pid: nat, step: WaitStep, bound: Bound)
    requires ApplyWait(s, pid, step, bound).log != s.log
    ensures var s' := ApplyWait(s, pid, step, bound);
            && pid in s.waiters && !s.waiters[pid].Delivered? && !s.waiters[pid].Gone?
            && pid in s'.waiters && (s'.waiters[pid].Delivered? || s'.waiters[pid].Gone?)
            && s'.log == s.log + [if step.PollResult? then ResultReturned(pid) else WaitCancelled(pid)]
  {
  }

  lemma WaitAccounts(s: State, pid: nat, step: WaitStep, bound: Bound)
    requires ApplyWait(s, pid, step, bound).log != s.log
    ensures Accounts(s, ApplyWait(s, pid, step, bound),
                     if step.PollResult? then ResultReturned(pid) else WaitCancelled(pid))
  {
    WaitEvent(s, pid, step, bound);
    ExtendsWait(s, pid, step, bound);
  }

  lemma TallyWait(s: State, pid: nat, step: WaitStep, bound: Bound)
    requires Tallied(s)
    ensures Tallied(ApplyWait(s, pid, step, bound))
  {
    var s' := ApplyWait(s, pid, step, bound);
    ExtendsWait(s, pid, step, bound);
    if s'.log == s.log {
      TallyQuiet(s, s');
    } else {
      WaitAccounts(s, pid, step, bound);
      TallyEvent(s, s', if step.PollResult? then ResultReturned(pid) else WaitCancelled(pid));
    }
  }

  lemma OfferAccounts(s: State, job: string, bound: Bound)
    requires Apply(s, Offer(job), bound) != s
    ensures Accounts(s, Apply(s, Offer(job), bound), Offered(job))
  {
  }

  lemma PublishAccounts(s: State, job: string, result: Reply, bound: Bound)
    requires ApplyPublish(s, job, result, bound) != s
    ensures Accounts(s, ApplyPublish(s, job, result, bound), ResultPublished(job, result))
  {
  }

  lemma TallyStep(s: State, step: Step, bound: Bound)
    requires Tallied(s)
    ensures Tallied(Apply(s, step, bound))
  {
    var s' := Apply(s, step, bound);
    if step.Take? {
      TallyTake(s, step.pid, step.take, bound);
    } else if step.Wait? {
      TallyWait(s, step.pid, step.wait, bound);
    } else if s' != s {
      if step.Offer? {
        OfferAccounts(s, step.job, bound);
        TallyEvent(s, s', Offered(step.job));
      } else if step.Publish? {
        PublishAccounts(s, step.job, step.result, bound);
        TallyEvent(s, s', ResultPublished(step.job, step.result));
      } else {
        TallyQuiet(s, s');
      }
    }
  }

  lemma TakerFrame(t: Taker, s: State, s': State, bound: Bound)
    requires GoodTaker(t, s, bound) && RepliesKept(s, s')
    ensures GoodTaker(t, s', bound)
  {
  }

  lemma PreparedIsChecked(t: Taker, cancelled: bool, first: Answers, copied: map<string, Bytes>, second: Answers,
                          bound: Bound)
    requires t.Began?
    ensures var r := Prepared(t, cancelled, first, copied, second, bound);
            r.Raised? || (r.Ready? && Checked(r.job, r.now, r.first, r.second, r.sources, bound))
  {
    var r := Prepared(t, cancelled, first, copied, second, bound);
    if r.Ready? {
      CopiedRowsDecode(r.first.request.sources, copied);
    }
  }

  lemma TakerChange(s: State, pid: nat, step: TakeStep, bound: Bound)
    requires pid in s.takers ==> GoodTaker(s.takers[pid], s, bound)
    ensures var s' := ApplyTake(s, pid, step, bound); pid in s'.takers ==> GoodTaker(s'.takers[pid], s', bound)
  {
    if step.Prepare? && pid in s.takers && s.takers[pid].Began? {
      PreparedIsChecked(s.takers[pid], s.takers[pid].job in s.cancelled, step.first, step.copied, step.second, bound);
    }
  }

  lemma TakersStep(s: State, step: Step, bound: Bound)
    requires forall p :: p in s.takers ==> GoodTaker(s.takers[p], s, bound)
    ensures forall p :: p in Apply(s, step, bound).takers ==>
      GoodTaker(Apply(s, step, bound).takers[p], Apply(s, step, bound), bound)
  {
    var s' := Apply(s, step, bound);
    ExtendsStep(s, step, bound);
    Locality(s, step, bound);
    forall p | p in s'.takers
      ensures GoodTaker(s'.takers[p], s', bound)
    {
      if step.Take? && step.pid == p {
        TakerChange(s, p, step.take, bound);
      } else {
        TakerFrame(s.takers[p], s, s', bound);
      }
    }
  }

  lemma MakerTake(s: State, pid: nat, step: TakeStep, bound: Bound)
    requires OneMaker(s) && forall p :: p in s.takers ==> (s.takers[p].Made? || s.takers[p].Claimed? ==> s.takers[p].job in s.replies)
    ensures OneMaker(ApplyTake(s, pid, step, bound))
  {
  }

  lemma MakersHold(s: State, bound: Bound)
    requires forall p :: p in s.takers ==> GoodTaker(s.takers[p], s, bound)
    ensures forall p :: p in s.takers ==>
      (s.takers[p].Made? || s.takers[p].Claimed? ==> s.takers[p].job in s.replies)
  {
    forall p | p in s.takers
      ensures s.takers[p].Made? || s.takers[p].Claimed? ==> s.takers[p].job in s.replies
    {
      assert GoodTaker(s.takers[p], s, bound);
    }
  }

  lemma MakerElse(s: State, step: Step, bound: Bound)
    requires OneMaker(s) && !step.Take?
    ensures OneMaker(Apply(s, step, bound))
  {
    if step.Wait? {
      ExtendsWait(s, step.pid, step.wait, bound);
    } else {
      OtherTouches(s, step, bound);
    }
  }

  lemma MakerStep(s: State, step: Step, bound: Bound)
    requires OneMaker(s) && forall p :: p in s.takers ==> GoodTaker(s.takers[p], s, bound)
    ensures OneMaker(Apply(s, step, bound))
  {
    if step.Take? {
      MakersHold(s, bound);
      MakerTake(s, step.pid, step.take, bound);
    } else {
      MakerElse(s, step, bound);
    }
  }

  predicate GoodDirs(s: State, bound: Bound) {
    forall job :: job in s.replies ==> GoodDir(job, s.replies[job], bound)
  }

  lemma DirsMake(s: State, pid: nat, bound: Bound)
    requires GoodDirs(s, bound)
    ensures GoodDirs(ApplyTake(s, pid, MakeReply, bound), bound)
  {
  }

  lemma DirsClaim(s: State, pid: nat, text: Text<Request>, bound: Bound)
    requires GoodDirs(s, bound) && (pid in s.takers ==> GoodTaker(s.takers[pid], s, bound))
    ensures GoodDirs(ApplyTake(s, pid, PublishClaim(text), bound), bound)
  {
    var s' := ApplyTake(s, pid, PublishClaim(text), bound);
    if s'.replies != s.replies {
      var t := s.takers[pid];
      assert t.second.request.id == t.job;
      assert GoodDir(t.job, s'.replies[t.job], bound);
    }
  }

  lemma DirsPublish(s: State, job: string, result: Reply, bound: Bound)
    requires GoodDirs(s, bound)
    ensures GoodDirs(ApplyPublish(s, job, result, bound), bound)
  {
    var s' := ApplyPublish(s, job, result, bound);
    if s'.replies != s.replies {
      assert GoodDir(job, s.replies[job], bound);
      assert GoodDir(job, s'.replies[job], bound);
    }
  }

  lemma DirsElse(s: State, step: Step, bound: Bound)
    requires !step.Publish? && !(step.Take? && (step.take.MakeReply? || step.take.PublishClaim?))
    ensures Apply(s, step, bound).replies == s.replies
  {
  }

  lemma DirsStep(s: State, step: Step, bound: Bound)
    requires GoodDirs(s, bound)
    requires forall p :: p in s.takers ==> GoodTaker(s.takers[p], s, bound)
    ensures GoodDirs(Apply(s, step, bound), bound)
  {
    if step.Publish? {
      DirsPublish(s, step.job, step.result, bound);
    } else if step.Take? && step.take.MakeReply? {
      DirsMake(s, step.pid, bound);
    } else if step.Take? && step.take.PublishClaim? {
      DirsClaim(s, step.pid, step.take.text, bound);
    } else {
      DirsElse(s, step, bound);
    }
  }

  lemma WaiterFrame(w: Waiter, s: State, s': State, bound: Bound)
    requires GoodWaiter(w, s, bound) && RepliesKept(s, s') && SubmissionsKept(s, s')
    ensures GoodWaiter(w, s', bound)
  {
  }

  lemma WaitersStep(s: State, step: Step, bound: Bound)
    requires forall w :: w in s.waiters ==> GoodWaiter(s.waiters[w], s, bound)
    ensures forall w :: w in Apply(s, step, bound).waiters ==>
      GoodWaiter(Apply(s, step, bound).waiters[w], Apply(s, step, bound), bound)
  {
    var s' := Apply(s, step, bound);
    ExtendsStep(s, step, bound);
    Locality(s, step, bound);
    forall w | w in s'.waiters
      ensures GoodWaiter(s'.waiters[w], s', bound)
    {
      if step.Wait? && step.pid == w {
        WaiterChange(s, w, step.wait, bound);
      } else {
        WaiterFrame(s.waiters[w], s, s', bound);
      }
    }
  }

  lemma WaiterChange(s: State, pid: nat, step: WaitStep, bound: Bound)
    requires pid in s.waiters ==> GoodWaiter(s.waiters[pid], s, bound)
    ensures var s' := ApplyWait(s, pid, step, bound); pid in s'.waiters ==> GoodWaiter(s'.waiters[pid], s', bound)
  {
  }

  predicate AllInWindow(log: seq<Event>, bound: Bound) {
    forall i :: 0 <= i < |log| ==> AdmittedInWindow(log[i], bound)
  }

  lemma WindowNext(log: seq<Event>, e: Event, bound: Bound)
    requires AllInWindow(log, bound) && AdmittedInWindow(e, bound)
    ensures AllInWindow(log + [e], bound)
  {
  }

  lemma WindowClaim(s: State, pid: nat, text: Text<Request>, bound: Bound)
    requires AllInWindow(s.log, bound) && (pid in s.takers ==> GoodTaker(s.takers[pid], s, bound))
    ensures AllInWindow(ApplyTake(s, pid, PublishClaim(text), bound).log, bound)
  {
    if ApplyTake(s, pid, PublishClaim(text), bound).log != s.log {
      var t := s.takers[pid];
      WindowNext(s.log, ClaimPublished(t.job, ClaimRecord(t, text, bound), t.second.request, s.clock), bound);
    }
  }

  lemma OtherLog(s: State, step: Step, bound: Bound)
    requires !(step.Take? && step.take.PublishClaim?)
    ensures var log := Apply(s, step, bound).log;
            log == s.log || (|log| == |s.log| + 1 && log[..|s.log|] == s.log && !log[|s.log|].ClaimPublished?)
  {
    if step.Wait? && Apply(s, step, bound).log != s.log {
      WaitEvent(s, step.pid, step.wait, bound);
    }
  }

  lemma WindowStep(s: State, step: Step, bound: Bound)
    requires AllInWindow(s.log, bound)
    requires forall p :: p in s.takers ==> GoodTaker(s.takers[p], s, bound)
    ensures AllInWindow(Apply(s, step, bound).log, bound)
  {
    if step.Take? && step.take.PublishClaim? {
      WindowClaim(s, step.pid, step.take.text, bound);
    } else {
      OtherLog(s, step, bound);
      var log := Apply(s, step, bound).log;
      if log != s.log {
        WindowNext(s.log, log[|s.log|], bound);
        assert log == s.log + [log[|s.log|]];
      }
    }
  }

  lemma SubmissionsStep(s: State, step: Step, bound: Bound)
    requires forall id :: id in s.submitted ==> GoodSubmission(id, s.submitted[id], bound)
    ensures var s' := Apply(s, step, bound);
            forall id :: id in s'.submitted ==> GoodSubmission(id, s'.submitted[id], bound)
  {
    if step.Take? {
      var taker := TakeTouches(s, step.pid, step.take, bound);
    } else if step.Wait? {
      var waiter := WaitTouches(s, step.pid, step.wait, bound);
    }
  }

  lemma InvStep(s: State, step: Step, bound: Bound)
    requires Inv(s, bound)
    ensures Inv(Apply(s, step, bound), bound)
  {
    SubmissionsStep(s, step, bound);
    TallyStep(s, step, bound);
    TakersStep(s, step, bound);
    MakerStep(s, step, bound);
    DirsStep(s, step, bound);
    WaitersStep(s, step, bound);
    WindowStep(s, step, bound);
  }

  lemma {:induction false} InvRun(steps: seq<Step>, bound: Bound)
    ensures Inv(Exec(Initial, steps, bound), bound)
    decreases |steps|
  {
    if steps != [] {
      InvRun(steps[..|steps| - 1], bound);
      InvStep(Exec(Initial, steps[..|steps| - 1], bound), steps[|steps| - 1], bound);
    }
  }

  // ----- whole runs

  /** In every run each job gets at most one reply directory, one claim and one result; a waiter
      ends at most once, by a result or by a cancellation but never by both; and a job is never
      offered after its reply directory exists. */
  lemma AtMostOnce(steps: seq<Step>, bound: Bound)
    ensures forall t: Tally :: Count(Exec(Initial, steps, bound).log, t) <= 1
    ensures NeverOfferedAgain(Exec(Initial, steps, bound).log)
  {
    InvRun(steps, bound);
    var s := Exec(Initial, steps, bound);
    forall t: Tally
      ensures Count(s.log, t) <= 1
    {
      assert Count(s.log, t) <= Expected(s, t) <= 1;
    }
  }

  lemma {:induction false} CreateOnce(s: State, steps: seq<Step>, bound: Bound)
    ensures Extends(s, Exec(s, steps, bound))
    decreases |steps|
  {
    if steps != [] {
      CreateOnce(s, steps[..|steps| - 1], bound);
      ExtendsStep(Exec(s, steps[..|steps| - 1], bound), steps[|steps| - 1], bound);
    }
  }

  /** Every claim a run publishes was admitted, by the time it records, between the creation of the
      inspected request and the end of its admission allowance, with the caller and post-release
      time still to run before the expiry. */
  lemma ClaimWindow(steps: seq<Step>, bound: Bound, i: nat)
    requires i < |Exec(Initial, steps, bound).log| && Exec(Initial, steps, bound).log[i].ClaimPublished?
    ensures var e := Exec(Initial, steps, bound).log[i];
            && e.inspected.created <= e.claim.claimedAt
               <= e.inspected.created + AdmissionSeconds(e.inspected.kind) * 1000
            && e.claim.claimedAt + (e.inspected.callerSeconds + e.inspected.postRelease) * 1000 <= e.inspected.expires
            && e.claim.id == e.job && e.inspected.id == e.job
  {
    InvRun(steps, bound);
    assert AdmittedInWindow(Exec(Initial, steps, bound).log[i], bound);
  }

  /** A take that returned leaves the whole caller and post-release time before the campaign deadline. */
  lemma TakeWithinCampaign(steps: seq<Step>, bound: Bound, pid: nat)
    requires var s := Exec(Initial, steps, bound); pid in s.takers && s.takers[pid].Returned?
    ensures var snap := Exec(Initial, steps, bound).takers[pid].snapshot;
            snap.claim.claimedAt + (snap.request.callerSeconds + snap.request.postRelease) * 1000 <= bound.deadline
  {
    InvRun(steps, bound);
    var s := Exec(Initial, steps, bound);
    assert GoodTaker(s.takers[pid], s, bound);
  }

  /** What a waiter is given is the result published for its own request: every identity it can
      check agrees, the claim that reserved the job binds that exact request, and a success
      carries a seal and an independent release. */
  lemma WaiterGetsItsOwn(steps: seq<Step>, bound: Bound, w: nat)
    requires var s := Exec(Initial, steps, bound); w in s.waiters && s.waiters[w].Delivered?
    ensures var s := Exec(Initial, steps, bound);
            var q, r := s.waiters[w].request, s.waiters[w].result;
            && r.id == q.id && r.request == CanonicalRequest(q) && r.campaign == q.campaign && r.config == q.config
            && r.sourceSet == q.sourceSet && r.controller == bound.controller
            && (r.status == Succeeded ==> r.seal.Some? && r.independentRelease)
            && q.id in s.replies && s.replies[q.id].result == Some(r)
            && s.replies[q.id].claim.Some? && s.replies[q.id].claim.value.request == CanonicalRequest(q)
            && s.replies[q.id].claim.value.controller == bound.controller && r.campaign == bound.campaign
            && Submitted(s, q) && ValidRequest(q) && q.expires <= bound.deadline
  {
    InvRun(steps, bound);
    var s := Exec(Initial, steps, bound);
    assert GoodWaiter(s.waiters[w], s, bound);
    assert GoodDir(s.waiters[w].request.id, s.replies[s.waiters[w].request.id], bound);
  }

  /** A returned snapshot can be retained exactly when its claim binds the request it carries and
      that request's configuration digest is the canonical one. */
  lemma RetainableWhen(steps: seq<Step>, bound: Bound, pid: nat)
    requires var s := Exec(Initial, steps, bound); pid in s.takers && s.takers[pid].Returned?
    ensures var snap := Exec(Initial, steps, bound).takers[pid].snapshot;
            (RetainableHeader(snap, bound) && RowsDecode(snap.request.sources, snap.sources))
            <==> (snap.claim.request == CanonicalRequest(snap.request)
                  && snap.request.config == CanonicalConfig(snap.config))
  {
    InvRun(steps, bound);
    var s := Exec(Initial, steps, bound);
    assert GoodTaker(s.takers[pid], s, bound);
    assert GoodDir(s.takers[pid].job, s.replies[s.takers[pid].job], bound);
  }

  /** End to end: when a controller retained a snapshot and a waiter was given a result for that
      job, the snapshot's request is the waiter's own, admitted inside that request's window, and
      the decoded bytes have the source set the waiter submitted. No matter what the candidate did
      to its files. */
  lemma RetainedIsWhatWasAsked(steps: seq<Step>, bound: Bound, pid: nat, w: nat, files: map<string, Bytes>)
    requires var s := Exec(Initial, steps, bound);
             && pid in s.takers && s.takers[pid].Returned? && w in s.waiters && s.waiters[w].Delivered?
             && s.takers[pid].job == s.waiters[w].request.id
             && RetainableHeader(s.takers[pid].snapshot, bound)
             && files.Keys == RowNames(s.takers[pid].snapshot.request.sources)
             && forall k :: 0 <= k < |s.takers[pid].snapshot.request.sources| ==>
                  DecodeRow(s.takers[pid].snapshot.request.sources[k], s.takers[pid].snapshot.sources)
                  == Ok(files[s.takers[pid].snapshot.request.sources[k].name])
    ensures var s := Exec(Initial, steps, bound);
            var q, snap := s.waiters[w].request, s.takers[pid].snapshot;
            && snap.request == q
            && q.created <= snap.claim.claimedAt <= q.created + AdmissionSeconds(q.kind) * 1000
            && q.sourceSet == OfInventory(Inventory(q.sources, files))
            && q.config == CanonicalConfig(snap.config) && ValidateConfig(snap.config, bound) == Ok(q.kind)
  {
    InvRun(steps, bound);
    WaiterGetsItsOwn(steps, bound, w);
    var s := Exec(Initial, steps, bound);
    assert GoodTaker(s.takers[pid], s, bound);
    InventoryOfDecoded(s.takers[pid].snapshot.request.sources, s.takers[pid].snapshot.sources, files);
  }

  // ----- cancellation

  predicate NeverUnmarks(steps: seq<Step>, job: string) {
    forall i :: 0 <= i < |steps| && steps[i].Mark? && steps[i].job == job ==> steps[i].cancelled
  }

  /** Once a job is marked cancelled, and while the mark stays, no take of it succeeds any more. */
  lemma {:induction false} CancelledIsNeverTaken(s: State, steps: seq<Step>, bound: Bound, job: string, pid: nat)
    requires job in s.cancelled && NeverUnmarks(steps, job)
    requires pid in s.takers ==> !s.takers[pid].Returned?
    ensures var s' := Exec(s, steps, bound);
            && job in s'.cancelled
            && (pid in s'.takers && s'.takers[pid].job == job ==> !s'.takers[pid].Returned?)
    decreases |steps|
  {
    if steps != [] {
      var front := steps[..|steps| - 1];
      assert NeverUnmarks(front, job) by {
        forall i | 0 <= i < |front| && front[i].Mark? && front[i].job == job
          ensures front[i].cancelled
        {
          assert steps[i] == front[i];
        }
      }
      CancelledIsNeverTaken(s, front, bound, job, pid);
      CancelledStep(Exec(s, front, bound), steps[|steps| - 1], bound, job, pid);
    }
  }

  lemma CancelledStep(s: State, step: Step, bound: Bound, job: string, pid: nat)
    requires job in s.cancelled && (step.Mark? && step.job == job ==> step.cancelled)
    requires pid in s.takers && s.takers[pid].job == job ==> !s.takers[pid].Returned?
    ensures var s' := Apply(s, step, bound);
            && job in s'.cancelled
            && (pid in s'.takers && s'.takers[pid].job == job ==> !s'.takers[pid].Returned?)
  {
    CancelledStays(s, step, bound, job);
    if step.Take? && step.pid == pid {
      CancelledTake(s, pid, step.take, bound, job);
    } else {
      Locality(s, step, bound);
    }
  }

  lemma CancelledStays(s: State, step: Step, bound: Bound, job: string)
    requires job in s.cancelled && (step.Mark? && step.job == job ==> step.cancelled)
    ensures job in Apply(s, step, bound).cancelled
  {
    match step
    case Take(pid, take) =>
    case Wait(pid, wait) =>
    case _ =>
  }

  lemma CancelledTake(s: State, pid: nat, step: TakeStep, bound: Bound, job: string)
    requires job in s.cancelled
    requires pid in s.takers && s.takers[pid].job == job ==> !s.takers[pid].Returned?
    ensures var s' := ApplyTake(s, pid, step, bound);
            pid in s'.takers && s'.takers[pid].job == job ==> !s'.takers[pid].Returned?
  {
  }
}
