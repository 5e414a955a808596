/** What the exchange does answer: when a take returns and with what, when a result comes out, and that
    a waiter is given whatever the controller published for its request, success or not. */
module ExchangeProgress {
  import opened Results
  import opened Base64
  import opened Jobs
  import opened Snapshot
  import opened Exchange
  import opened ExchangeSafety
  import opened ExchangeFindings

  // ----- a take that nothing interrupts

  /** The job directory shows this request and configuration, with every source as inventoried. */
  predicate Presents(job: string, a: Answers, request: Request, config: Config, bound: Bound) {
    && a.request.decoded == Some(request) && ValidRequest(request)
    && request.id == job && request.campaign == bound.campaign && request.selection == bound.selection
    && request.config == OfConfig(a.config) && a.config.decoded == Some(config)
    && a.members == RowNames(request.sources)
    && forall i :: 0 <= i < |request.sources| ==> RowMatches(request.sources[i], a.sources)
  }

  lemma InspectWhen(job: string, a: Answers, request: Request, config: Config, bound: Bound)
    ensures Inspect(job, a, bound) == Ok(Inspected(request, config)) <==> Presents(job, a, request, config, bound)
  {
  }

  function TakeSteps(pid: nat, job: string, first: Answers, copied: map<string, Bytes>, second: Answers,
                     text: Text<Request>): seq<Step>
  {
    [Take(pid, BeginTake(job))] + [Take(pid, Prepare(first, copied, second))] + [Take(pid, MakeReply)]
    + [Take(pid, PublishClaim(text))] + [Take(pid, Recheck)]
  }

  /** What a take needs: an open job, two looks at one sound request, the bytes it copies, and time. */
  predicate Takable(s: State, job: string, first: Answers, copied: map<string, Bytes>, second: Answers,
                    request: Request, config: Config, bound: Bound)
  {
    && job !in s.replies && job !in s.cancelled
    && Presents(job, first, request, config, bound) && Presents(job, second, request, config, bound)
    && RowsMatch(request.sources, copied)
    && request.callerSeconds == bound.caps.Of(request.kind) && request.expires <= bound.deadline
    && ValidateConfig(config, bound) == Ok(request.kind)
    && request.created <= s.clock
    && s.clock + (request.callerSeconds + request.postRelease) * 1000 <= request.expires
  }

  lemma ExecSnoc(s: State, steps: seq<Step>, step: Step, bound: Bound)
    ensures Exec(s, steps + [step], bound) == Apply(Exec(s, steps, bound), step, bound)
  {
    assert (steps + [step])[..|steps|] == steps;
  }

  lemma ExecOne(s: State, step: Step, bound: Bound)
    ensures Exec(s, [step], bound) == Apply(s, step, bound)
  {
    assert [step][..0] == [];
  }

  /** The five steps of a take from a state, one after another. */
  function Taken(s: State, pid: nat, job: string, first: Answers, copied: map<string, Bytes>, second: Answers,
                 text: Text<Request>, bound: Bound): State
  {
    var s1 := ApplyTake(s, pid, BeginTake(job), bound);
    var s2 := ApplyTake(s1, pid, Prepare(first, copied, second), bound);
    var s3 := ApplyTake(s2, pid, MakeReply, bound);
    var s4 := ApplyTake(s3, pid, PublishClaim(text), bound);
    ApplyTake(s4, pid, Recheck, bound)
  }

  lemma TakenIsRun(s: State, pid: nat, job: string, first: Answers, copied: map<string, Bytes>, second: Answers,
                   text: Text<Request>, bound: Bound)
    ensures Exec(s, TakeSteps(pid, job, first, copied, second, text), bound)
         == Taken(s, pid, job, first, copied, second, text, bound)
  {
    var b, p, m, c := Take(pid, BeginTake(job)), Take(pid, Prepare(first, copied, second)), Take(pid, MakeReply),
                      Take(pid, PublishClaim(text));
    ExecOne(s, b, bound);
    ExecSnoc(s, [b], p, bound);
    ExecSnoc(s, [b] + [p], m, bound);
    ExecSnoc(s, [b] + [p] + [m], c, bound);
    ExecSnoc(s, [b] + [p] + [m] + [c], Take(pid, Recheck), bound);
  }

  /** Whether two looks and a copy leave a take ready with this request and configuration. */
  predicate Prepares(now: int, job: string, cancelled: bool, first: Answers, copied: map<string, Bytes>, second: Answers,
                     request: Request, config: Config, bound: Bound)
  {
    && !cancelled && Presents(job, first, request, config, bound) && Presents(job, second, request, config, bound)
    && RowsMatch(request.sources, copied) && WithinCeiling(Inspected(request, config), bound) && InWindow(now, request)
  }

  lemma PreparesWhen(now: int, job: string, cancelled: bool, first: Answers, copied: map<string, Bytes>, second: Answers,
                     request: Request, config: Config, bound: Bound)
    ensures var t := Prepared(Began(job, now), cancelled, first, copied, second, bound);
            (t.Ready? && t.first == t.second == Inspected(request, config)) <==>
            Prepares(now, job, cancelled, first, copied, second, request, config, bound)
    ensures Prepares(now, job, cancelled, first, copied, second, request, config, bound) ==>
            Prepared(Began(job, now), cancelled, first, copied, second, bound)
            == Ready(job, now, Inspected(request, config), Inspected(request, config), Encoded(request.sources, copied))
  {
    InspectWhen(job, first, request, config, bound);
    InspectWhen(job, second, request, config, bound);
  }

  /** The rest of a take, once it is prepared. */
  lemma PreparedReturns(s: State, pid: nat, t: Taker, text: Text<Request>, bound: Bound)
    requires pid in s.takers && s.takers[pid] == t && (t.Ready? || t.Raised?)
    ensures var s' := ApplyTake(ApplyTake(ApplyTake(s, pid, MakeReply, bound), pid, PublishClaim(text), bound), pid, Recheck,
                                bound);
            && pid in s'.takers
            && (s'.takers[pid].Returned? <==> t.Ready? && t.job !in s.replies && t.job !in s.cancelled && t.first == t.second)
            && (s'.takers[pid].Returned? ==>
                  s'.takers[pid] == Returned(t.job, Snapshot(t.first.request, t.first.config, t.sources,
                    Claim(1, t.second.request.id, OfRequest(text), bound.controller, t.now, false))))
  {
    var s1 := ApplyTake(s, pid, MakeReply, bound);
    var s2 := ApplyTake(s1, pid, PublishClaim(text), bound);
    if t.Ready? && t.job !in s.replies {
      assert s1.takers[pid] == Made(t.job, t.now, t.first, t.second, t.sources) && s1.replies[t.job] == ReplyDir(None, None);
      assert s2.takers[pid] == Claimed(t.job, t.now, t.first, t.second, t.sources);
    } else {
      assert s2.takers[pid].Raised?;
    }
  }

  /** A take that nothing interrupts returns this request and configuration exactly when the job is open,
      both looks show them, the copied bytes match, and the admission window holds by the clock at its
      beginning; what it returns are those bytes encoded, under the claim it published. */
  lemma TakeReturnsWhen(s: State, pid: nat, job: string, first: Answers, copied: map<string, Bytes>, second: Answers,
                        text: Text<Request>, request: Request, config: Config, bound: Bound)
    requires pid !in s.takers
    ensures var s' := Exec(s, TakeSteps(pid, job, first, copied, second, text), bound);
            && pid in s'.takers
            && ((s'.takers[pid].Returned? && s'.takers[pid].snapshot.request == request
                 && s'.takers[pid].snapshot.config == config) <==>
                Takable(s, job, first, copied, second, request, config, bound))
            && (Takable(s, job, first, copied, second, request, config, bound) ==>
                  s'.takers[pid] == Returned(job, Snapshot(request, config, Encoded(request.sources, copied),
                    Claim(1, job, OfRequest(text), bound.controller, s.clock, false))))
  {
    TakenIsRun(s, pid, job, first, copied, second, text, bound);
    var s1 := ApplyTake(s, pid, BeginTake(job), bound);
    var s2 := ApplyTake(s1, pid, Prepare(first, copied, second), bound);
    PreparesWhen(s.clock, job, job in s.cancelled, first, copied, second, request, config, bound);
    PreparedEnds(s.clock, job, job in s.cancelled, first, copied, second, bound);
    PreparedReturns(s2, pid, s2.takers[pid], text, bound);
  }

  lemma PreparedEnds(now: int, job: string, cancelled: bool, first: Answers, copied: map<string, Bytes>, second: Answers,
                     bound: Bound)
    ensures var t := Prepared(Began(job, now), cancelled, first, copied, second, bound);
            (t.Ready? || t.Raised?) && t.job == job && (t.Ready? ==> t.now == now && t.second.request.id == job)
  {
  }

  // ----- results, and who is given them

  /** Every answer a controller can publish under a claim comes out, once. */
  lemma ResultComesOutWhen(s: State, job: string, r: Reply, bound: Bound)
    ensures var s' := Apply(s, Publish(job, r), bound);
            (job in s'.replies && s'.replies[job].result == Some(r)) <==>
            || (job in s.replies && s.replies[job].result == Some(r))
            || (&& job in s.replies && s.replies[job].claim.Some? && s.replies[job].result.None?
                && r.id == job && r.controller == bound.controller && r.campaign == bound.campaign
                && r.request == s.replies[job].claim.value.request
                && r.status in {Succeeded, Failed, Unsupported, Cancelled} && !r.adoptionAuthorized && !r.automaticRetry
                && (r.status == Succeeded ==> r.seal.Some? && r.independentRelease))
  {
  }

  /** What makes a result the answer to one request, its own status included among four. */
  predicate ResultOf(r: Reply, q: Request, controller: Sha) {
    && r.schema == 1 && r.id == q.id && r.campaign == q.campaign && r.config == q.config && r.sourceSet == q.sourceSet
    && r.request == CanonicalRequest(q) && r.controller == controller
    && r.status in {Succeeded, Failed, Unsupported, Cancelled} && !r.automaticRetry && !r.adoptionAuthorized
    && r.payload.Some? && (r.status == Succeeded ==> r.seal.Some? && r.independentRelease)
  }

  /** In every state a run reaches, a waiter that polls and finds a result is given exactly that result,
      whatever its status, if it answers the waiter's request, and leaves otherwise; finding none it
      stays. Nothing else changes. */
  lemma PollDeliversWhen(steps: seq<Step>, bound: Bound, w: nat)
    requires var s := Exec(Initial, steps, bound); w in s.waiters && s.waiters[w].Waiting?
    ensures var s, s' := Exec(Initial, steps, bound), Exec(Initial, steps + [Wait(w, PollResult)], bound);
            var q := s.waiters[w].request;
            if q.id !in s.replies || s.replies[q.id].result.None? then s' == s
            else
              var r := s.replies[q.id].result.value;
              && (s'.waiters == s.waiters[w := Delivered(q, r)] <==> ResultOf(r, q, bound.controller))
              && (s'.waiters == s.waiters[w := Leaving(q)] <==> !ResultOf(r, q, bound.controller))
              && s'.replies == s.replies && s'.cancelled == s.cancelled && s'.takers == s.takers
  {
    ExecSnoc(Initial, steps, Wait(w, PollResult), bound);
    var s := Exec(Initial, steps, bound);
    var q := s.waiters[w].request;
    assert s.waiters[w := Leaving(q)][w] == Leaving(q);
    if q.id in s.replies && s.replies[q.id].result.Some? {
      assert s.waiters[w := Delivered(q, s.replies[q.id].result.value)][w] == Delivered(q, s.replies[q.id].result.value);
    }
  }

  /** What of this a run guarantees by itself: only schema, configuration, sources, payload and the text
      that the claim bound are left to be found out by the poll. */
  lemma PollRefusesWhen(steps: seq<Step>, bound: Bound, w: nat)
    requires var s := Exec(Initial, steps, bound);
             && w in s.waiters && s.waiters[w].Waiting? && s.waiters[w].request.id in s.replies
             && s.replies[s.waiters[w].request.id].result.Some?
    ensures var s := Exec(Initial, steps, bound);
            var q := s.waiters[w].request;
            var dir := s.replies[q.id];
            ResultOf(dir.result.value, q, bound.controller) <==>
            && dir.claim.Some? && dir.claim.value.request == CanonicalRequest(q)
            && dir.result.value.schema == 1 && dir.result.value.payload.Some? && q.campaign == bound.campaign
            && dir.result.value.config == q.config && dir.result.value.sourceSet == q.sourceSet
  {
    InvRun(steps, bound);
    var s := Exec(Initial, steps, bound);
    assert GoodDir(s.waiters[w].request.id, s.replies[s.waiters[w].request.id], bound);
  }

  // ----- submissions, parking, and leaving

  /** A request is submitted exactly when it is sound, dated now and over before the deadline, under a
      name not used before; a waiter waits for submitted requests only. */
  lemma SubmittedWhen(s: State, q: Request, bound: Bound)
    ensures Submitted(Apply(s, Submit(q), bound), q) <==>
            || Submitted(s, q)
            || (q.id !in s.submitted && ValidRequest(q) && q.created == s.clock && q.expires <= bound.deadline)
    ensures forall w: nat :: w !in s.waiters ==>
              var s' := Apply(s, Wait(w, BeginWait(q)), bound);
              (w in s'.waiters <==> Submitted(s, q)) && (w in s'.waiters ==> s'.waiters[w] == Waiting(q))
  {
  }

  /** The campaign parks once, with a reason of at most 2048 characters, and stays parked for it. */
  lemma ParkedWhen(s: State, reason: string, bound: Bound)
    ensures Apply(s, Park(reason), bound).parked ==
            if s.parked.None? && 0 < |reason| <= 2048 then Some(reason) else s.parked
  {
  }

  /** A waiter leaves when the campaign is parked, and only then; abandoned at any time it leaves too.
      Leaving ends in a cancellation of its job, published unless one stands. */
  lemma LeavingCancels(s: State, w: nat, bound: Bound)
    requires w in s.waiters && s.waiters[w].Waiting?
    ensures var q := s.waiters[w].request;
            && Apply(s, Wait(w, PollParked), bound)
               == (if s.parked.Some? then s.(waiters := s.waiters[w := Leaving(q)]) else s)
            && Apply(s, Wait(w, Abandon), bound) == s.(waiters := s.waiters[w := Leaving(q)])
            && Apply(s.(waiters := s.waiters[w := Leaving(q)]), Wait(w, CancelWait), bound)
               == s.(waiters := s.waiters[w := Gone(q)], cancelled := s.cancelled + {q.id},
                     log := if q.id in s.cancelled then s.log else s.log + [WaitCancelled(w)])
  {
    var q := s.waiters[w].request;
    assert s.waiters[w := Leaving(q)][w := Gone(q)] == s.waiters[w := Gone(q)];
    if q.id in s.cancelled { assert s.cancelled + {q.id} == s.cancelled; }
  }

  // ----- from a submission to its answer

  /** The candidate submits and waits, the controller takes, runs and publishes, the candidate polls. */
  function JobRun(q: Request, answers: Answers, copied: map<string, Bytes>, r: Reply): seq<Step> {
    [Tick(q.created)] + [Submit(q)] + TakeSteps(0, q.id, answers, copied, answers, Text(Some(q), 0))
    + [Wait(0, BeginWait(q))] + [Publish(q.id, r)] + [Wait(0, PollResult)]
  }

  lemma {:induction false} ExecJoin(s: State, one: seq<Step>, two: seq<Step>, bound: Bound)
    ensures Exec(s, one + two, bound) == Exec(Exec(s, one, bound), two, bound)
    decreases |two|
  {
    if two == [] {
      assert one + two == one;
    } else {
      ExecJoin(s, one, two[..|two| - 1], bound);
      assert (one + two)[..|one + two| - 1] == one + two[..|two| - 1];
    }
  }

  lemma Submits(q: Request, bound: Bound)
    requires ValidRequest(q) && q.expires <= bound.deadline
    ensures Exec(Initial, [Tick(q.created)] + [Submit(q)], bound)
         == Initial.(clock := q.created, submitted := map[q.id := q])
  {
    ExecOne(Initial, Tick(q.created), bound);
    ExecSnoc(Initial, [Tick(q.created)], Submit(q), bound);
    assert map[][q.id := q] == map[q.id := q];
  }

  /** The reply tree after a take that returned. */
  lemma TakenLeaves(s: State, job: string, answers: Answers, copied: map<string, Bytes>, text: Text<Request>,
                    request: Request, config: Config, bound: Bound)
    requires 0 !in s.takers && Takable(s, job, answers, copied, answers, request, config, bound)
    ensures var s' := Exec(s, TakeSteps(0, job, answers, copied, answers, text), bound);
            && s'.submitted == s.submitted && s'.waiters == s.waiters && job in s'.replies
            && s'.replies[job] == ReplyDir(Some(Claim(1, job, OfRequest(text), bound.controller, s.clock, false)), None)
  {
    TakenIsRun(s, 0, job, answers, copied, answers, text, bound);
    PreparesWhen(s.clock, job, false, answers, copied, answers, request, config, bound);
    var s1 := ApplyTake(s, 0, BeginTake(job), bound);
    var s2 := ApplyTake(s1, 0, Prepare(answers, copied, answers), bound);
    var i := Inspected(request, config);
    assert s2 == s.(takers := s.takers[0 := Began(job, s.clock)][0 := s2.takers[0]]);
    PreparedLeaves(s2, job, s.clock, i, Encoded(request.sources, copied), text, bound);
  }

  lemma PreparedLeaves(s: State, job: string, now: int, i: Inspected, sources: map<string, string>, text: Text<Request>,
                       bound: Bound)
    requires 0 in s.takers && s.takers[0] == Ready(job, now, i, i, sources) && job !in s.replies && job !in s.cancelled
    requires i.request.id == job
    ensures var s' := ApplyTake(ApplyTake(ApplyTake(s, 0, MakeReply, bound), 0, PublishClaim(text), bound), 0, Recheck,
                                bound);
            && s'.submitted == s.submitted && s'.waiters == s.waiters && job in s'.replies
            && s'.replies[job] == ReplyDir(Some(Claim(1, job, OfRequest(text), bound.controller, now, false)), None)
  {
    var s1 := ApplyTake(s, 0, MakeReply, bound);
    var s2 := ApplyTake(s1, 0, PublishClaim(text), bound);
    assert s1.takers[0] == Made(job, now, i, i, sources) && s1.replies[job] == ReplyDir(None, None);
    assert s2.takers[0] == Claimed(job, now, i, i, sources) && s2.replies[job].claim.Some?;
  }

  /** Every answer to a submitted request reaches its waiter, whatever its status: where the candidate
      keeps its files as submitted and the controller answers under its own claim, the run delivers. */
  lemma AnswerIsDelivered(q: Request, config: Config, answers: Answers, copied: map<string, Bytes>, r: Reply, bound: Bound)
    requires ValidRequest(q) && q.expires <= bound.deadline && ResultOf(r, q, bound.controller)
    requires Takable(Initial.(clock := q.created), q.id, answers, copied, answers, q, config, bound)
    ensures var s := Exec(Initial, JobRun(q, answers, copied, r), bound);
            0 in s.waiters && s.waiters[0] == Delivered(q, r) && q.id !in s.cancelled
  {
    var submit, take := [Tick(q.created)] + [Submit(q)], TakeSteps(0, q.id, answers, copied, answers, Text(Some(q), 0));
    var s0 := Exec(Initial, submit, bound);
    Submits(q, bound);
    ExecJoin(Initial, submit, take, bound);
    TakenLeaves(s0, q.id, answers, copied, Text(Some(q), 0), q, config, bound);
    var s1 := Exec(Initial, submit + take, bound);
    ExecSnoc(Initial, submit + take, Wait(0, BeginWait(q)), bound);
    ExecSnoc(Initial, submit + take + [Wait(0, BeginWait(q))], Publish(q.id, r), bound);
    ExecSnoc(Initial, submit + take + [Wait(0, BeginWait(q))] + [Publish(q.id, r)], Wait(0, PollResult), bound);
    AnsweredPoll(s1, q, r, bound);
    TakeCancelsNothing(s0, 0, q.id, answers, copied, answers, Text(Some(q), 0), bound);
  }

  lemma TakeCancelsNothing(s: State, pid: nat, job: string, first: Answers, copied: map<string, Bytes>, second: Answers,
                           text: Text<Request>, bound: Bound)
    ensures Exec(s, TakeSteps(pid, job, first, copied, second, text), bound).cancelled == s.cancelled
  {
    TakenIsRun(s, pid, job, first, copied, second, text, bound);
    StepCancelsNothing(s, pid, BeginTake(job), bound);
    var s1 := ApplyTake(s, pid, BeginTake(job), bound);
    StepCancelsNothing(s1, pid, Prepare(first, copied, second), bound);
    var s2 := ApplyTake(s1, pid, Prepare(first, copied, second), bound);
    StepCancelsNothing(s2, pid, MakeReply, bound);
    var s3 := ApplyTake(s2, pid, MakeReply, bound);
    StepCancelsNothing(s3, pid, PublishClaim(text), bound);
    StepCancelsNothing(ApplyTake(s3, pid, PublishClaim(text), bound), pid, Recheck, bound);
  }

  lemma StepCancelsNothing(s: State, pid: nat, step: TakeStep, bound: Bound)
    ensures ApplyTake(s, pid, step, bound).cancelled == s.cancelled
  {
  }

  lemma AnsweredPoll(s: State, q: Request, r: Reply, bound: Bound)
    requires 0 !in s.waiters && Submitted(s, q) && q.id in s.replies && q.campaign == bound.campaign
    requires s.replies[q.id].claim.Some? && s.replies[q.id].claim.value.request == CanonicalRequest(q)
    requires s.replies[q.id].result.None? && ResultOf(r, q, bound.controller)
    ensures var s' := Apply(Apply(Apply(s, Wait(0, BeginWait(q)), bound), Publish(q.id, r), bound), Wait(0, PollResult), bound);
            0 in s'.waiters && s'.waiters[0] == Delivered(q, r) && s'.cancelled == s.cancelled
  {
    var s1 := Apply(s, Wait(0, BeginWait(q)), bound);
    assert s1.waiters[0] == Waiting(q);
    var s2 := Apply(s1, Publish(q.id, r), bound);
    assert s2.replies[q.id].result == Some(r) && s2.waiters == s1.waiters;
  }

  /** A result that reports a failure, with nothing sealed and nothing released. */
  const FAILED: Reply := Published(1, JOB, Failed, CanonicalRequest(REQUEST), Named(1), CanonicalConfig(CONFIG),
                                   OfInventory(ROWS), Named(3), None, false, false, false,
                                   Some(Payload(false, false, false, false, false, None, Named(0), Named(0), Named(0))))

  /** A run in which a failure is what the waiter is given. */
  lemma FailureIsDelivered()
    ensures var s := Exec(Initial, JobRun(REQUEST, HONEST, HONEST.sources, FAILED), BOUND);
            0 in s.waiters && s.waiters[0] == Delivered(REQUEST, FAILED) && FAILED.status == Failed
  {
    SampleIsValid();
    InspectWhen(JOB, HONEST, REQUEST, CONFIG, BOUND);
    AnswerIsDelivered(REQUEST, CONFIG, HONEST, HONEST.sources, FAILED, BOUND);
  }
}
