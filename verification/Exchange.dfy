/** The owner exchange as a state machine over its create-once reply tree.

    One step is one atomic effect: a directory or a file that comes into being once, one look at
    the cancellation marker, one poll of a waiter. The environment moves the clock anywhere,
    creates and deletes cancellation markers, and answers every read of the request tree.
    A run is any sequence of steps; a step that is not enabled changes nothing. */
module Exchange {
  import opened Results
  import opened Base64
  import opened Jobs
  import opened Snapshot

  datatype ReplyDir = ReplyDir(claim: Option<Claim>, result: Option<Reply>)

  /** A take in progress. `now` is sampled once, when the call begins. */
  datatype Taker =
    | Began(job: string, now: int)
    | Ready(job: string, now: int, first: Inspected, second: Inspected, sources: map<string, string>)
    | Made(job: string, now: int, first: Inspected, second: Inspected, sources: map<string, string>)
    | Claimed(job: string, now: int, first: Inspected, second: Inspected, sources: map<string, string>)
    | Returned(job: string, snapshot: Snapshot)
    | Raised(job: string)

  datatype Waiter =
    | Waiting(request: Request)
    | Leaving(request: Request)
    | Delivered(request: Request, result: Reply)
    | Gone(request: Request)

  datatype Event =
    | ReplyMade(job: string)
    | ClaimPublished(job: string, claim: Claim, inspected: Request, at: int)
    | ResultPublished(job: string, result: Reply)
    | Offered(job: string)
    | ResultReturned(waiter: nat)
    | WaitCancelled(waiter: nat)

  /** `submitted` remembers the request each job directory was made for. */
  datatype State = State(clock: int, cancelled: set<string>, submitted: map<string, Request>,
                         replies: map<string, ReplyDir>, parked: Option<string>,
                         takers: map<nat, Taker>, waiters: map<nat, Waiter>, log: seq<Event>)

  datatype TakeStep =
    | BeginTake(job: string)
    | Prepare(first: Answers, copied: map<string, Bytes>, second: Answers)
    | MakeReply
    | PublishClaim(text: Text<Request>)
    | Recheck

  datatype WaitStep = BeginWait(request: Request) | PollResult | PollParked | Abandon | CancelWait

  datatype Step =
    | Tick(clock: int)
    | Submit(request: Request)
    | Mark(job: string, cancelled: bool)
    | Take(pid: nat, take: TakeStep)
    | Offer(job: string)
    | Publish(job: string, result: Reply)
    | Park(reason: string)
    | Wait(pid: nat, wait: WaitStep)

  const Initial := State(0, {}, map[], map[], None, map[], map[], [])

  /** Everything a take does before it touches the reply tree. */
  function Prepared(t: Taker, cancelled: bool, first: Answers, copied: map<string, Bytes>, second: Answers,
                    bound: Bound): Taker
    requires t.Began?
  {
    var i1 := Inspect(t.job, first, bound);
    if i1.Refused? || !WithinCeiling(i1.value, bound) || !RowsMatch(i1.value.request.sources, copied) then Raised(t.job)
    else
      var i2 := Inspect(t.job, second, bound);
      if i2.Refused? || !InWindow(t.now, i2.value.request) || cancelled then Raised(t.job)
      else Ready(t.job, t.now, i1.value, i2.value, Encoded(i1.value.request.sources, copied))
  }

  function ClaimRecord(t: Taker, text: Text<Request>, bound: Bound): Claim
    requires t.Made?
  {
    Claim(1, t.second.request.id, OfRequest(text), bound.controller, t.now, false)
  }

  /** The controller's own check before it publishes a result under a claim. */
  predicate Publishable(job: string, result: Reply, claim: Claim, bound: Bound) {
    && result.id == job && result.controller == bound.controller && result.campaign == bound.campaign
    && result.request == claim.request
    && result.status != OtherStatus && !result.adoptionAuthorized && !result.automaticRetry
    && (result.status == Succeeded ==> result.seal.Some? && result.independentRelease)
  }

  function SetTaker(s: State, pid: nat, t: Taker): State {
    s.(takers := s.takers[pid := t])
  }

  function SetWaiter(s: State, pid: nat, w: Waiter): State {
    s.(waiters := s.waiters[pid := w])
  }

  function ApplyTake(s: State, pid: nat, step: TakeStep, bound: Bound): State {
    if step.BeginTake? then
      if pid in s.takers then s else SetTaker(s, pid, Began(step.job, s.clock))
    else if pid !in s.takers then s
    else
      var t := s.takers[pid];
      match step
      case Prepare(first, copied, second) =>
        if !t.Began? then s
        else SetTaker(s, pid, Prepared(t, t.job in s.cancelled, first, copied, second, bound))
      case MakeReply =>
        if !t.Ready? then s
        else if t.job in s.replies then SetTaker(s, pid, Raised(t.job))
        else SetTaker(s, pid, Made(t.job, t.now, t.first, t.second, t.sources))
             .(replies := s.replies[t.job := ReplyDir(None, None)], log := s.log + [ReplyMade(t.job)])
      case PublishClaim(text) =>
        if !t.Made? then s
        else if t.job !in s.replies || s.replies[t.job].claim.Some? then SetTaker(s, pid, Raised(t.job))
        else
          var claim := ClaimRecord(t, text, bound);
          SetTaker(s, pid, Claimed(t.job, t.now, t.first, t.second, t.sources))
          .(replies := s.replies[t.job := s.replies[t.job].(claim := Some(claim))],
            log := s.log + [ClaimPublished(t.job, claim, t.second.request, s.clock)])
      case Recheck =>
        if !t.Claimed? then s
        else if t.job in s.cancelled || t.second != t.first || t.job !in s.replies || s.replies[t.job].claim.None?
        then SetTaker(s, pid, Raised(t.job))
        else SetTaker(s, pid, Returned(t.job,
               Snapshot(t.first.request, t.first.config, t.sources, s.replies[t.job].claim.value)))
      case BeginTake(_) => s
  }

  predicate Submitted(s: State, request: Request) {
    request.id in s.submitted && s.submitted[request.id] == request
  }

  /** A submission makes its job directory once, dates the request and fits it before the deadline. */
  function ApplySubmit(s: State, request: Request, bound: Bound): State {
    if request.id in s.submitted || !ValidRequest(request) || request.created != s.clock
       || request.expires > bound.deadline then s
    else s.(submitted := s.submitted[request.id := request])
  }

  function ApplyWait(s: State, pid: nat, step: WaitStep, bound: Bound): State {
    if step.BeginWait? then
      if pid in s.waiters || !Submitted(s, step.request) then s else SetWaiter(s, pid, Waiting(step.request))
    else if pid !in s.waiters then s
    else
      var w := s.waiters[pid];
      var q := w.request;
      match step
      case PollResult =>
        if !w.Waiting? || q.id !in s.replies || s.replies[q.id].result.None? then s
        else
          var r := s.replies[q.id].result.value;
          if ValidResult(r, q, bound.controller)
          then SetWaiter(s, pid, Delivered(q, r)).(log := s.log + [ResultReturned(pid)])
          else SetWaiter(s, pid, Leaving(q))
      case PollParked =>
        if !w.Waiting? || s.parked.None? then s else SetWaiter(s, pid, Leaving(q))
      case Abandon =>
        if !w.Waiting? then s else SetWaiter(s, pid, Leaving(q))
      case CancelWait =>
        if !w.Leaving? then s
        else if q.id in s.cancelled then SetWaiter(s, pid, Gone(q))
        else SetWaiter(s, pid, Gone(q)).(cancelled := s.cancelled + {q.id}, log := s.log + [WaitCancelled(pid)])
      case BeginWait(_) => s
  }

  function ApplyPublish(s: State, job: string, result: Reply, bound: Bound): State {
    if job !in s.replies || s.replies[job].claim.None? || s.replies[job].result.Some?
       || !Publishable(job, result, s.replies[job].claim.value, bound) then s
    else s.(replies := s.replies[job := s.replies[job].(result := Some(result))],
            log := s.log + [ResultPublished(job, result)])
  }

  function Apply(s: State, step: Step, bound: Bound): State {
    match step
    case Tick(clock) => s.(clock := clock)
    case Submit(request) => ApplySubmit(s, request, bound)
    case Mark(job, on) => s.(cancelled := if on then s.cancelled + {job} else s.cancelled - {job})
    case Take(pid, take) => ApplyTake(s, pid, take, bound)
    case Offer(job) => if job in s.replies then s else s.(log := s.log + [Offered(job)])
    case Publish(job, result) => ApplyPublish(s, job, result, bound)
    case Park(reason) => if s.parked.Some? || !(0 < |reason| <= 2048) then s else s.(parked := Some(reason))
    case Wait(pid, wait) => ApplyWait(s, pid, wait, bound)
  }

  function Exec(s: State, steps: seq<Step>, bound: Bound): State
    decreases |steps|
  {
    if steps == [] then s else Apply(Exec(s, steps[..|steps| - 1], bound), steps[|steps| - 1], bound)
  }

  // ----- counting what a run publishes

  datatype Tally = Replies(job: string) | Claims(job: string) | Results(job: string) | Ends(waiter: nat)

  predicate Counts(t: Tally, e: Event) {
    match t
    case Replies(job) => e == ReplyMade(job)
    case Claims(job) => e.ClaimPublished? && e.job == job
    case Results(job) => e.ResultPublished? && e.job == job
    case Ends(w) => e == ResultReturned(w) || e == WaitCancelled(w)
  }

  function Count(log: seq<Event>, t: Tally): nat {
    if log == [] then 0 else Count(log[..|log| - 1], t) + (if Counts(t, log[|log| - 1]) then 1 else 0)
  }

  lemma CountOne(log: seq<Event>, e: Event, t: Tally)
    ensures Count(log + [e], t) == Count(log, t) + (if Counts(t, e) then 1 else 0)
  {
    assert (log + [e])[..|log|] == log;
  }

  /** No job is offered once its reply directory has been made. */
  predicate NeverOfferedAgain(log: seq<Event>) {
    forall i, k :: 0 <= i < k < |log| && log[i].ReplyMade? && log[k].Offered? ==> log[i].job != log[k].job
  }

  function One(b: bool): nat { if b then 1 else 0 }

  function Expected(s: State, t: Tally): nat {
    match t
    case Replies(job) => One(job in s.replies)
    case Claims(job) => One(job in s.replies && s.replies[job].claim.Some?)
    case Results(job) => One(job in s.replies && s.replies[job].result.Some?)
    case Ends(w) => 1
  }

  ghost predicate Tallied(s: State) {
    && (forall t: Tally :: Count(s.log, t) <= Expected(s, t))
    && (forall job :: Count(s.log, Replies(job)) == Expected(s, Replies(job)))
    && (forall w :: Count(s.log, Ends(w)) <= One(w in s.waiters && (s.waiters[w].Delivered? || s.waiters[w].Gone?)))
    && (forall i :: 0 <= i < |s.log| && s.log[i].ReplyMade? ==> s.log[i].job in s.replies)
    && NeverOfferedAgain(s.log)
  }

  // ----- the invariant

  /** What a claim says of itself. */
  predicate GoodClaim(job: string, c: Claim, bound: Bound) {
    c.id == job && c.controller == bound.controller && !c.gpuAdmission
  }

  predicate GoodDir(job: string, d: ReplyDir, bound: Bound) {
    && (d.claim.Some? ==> GoodClaim(job, d.claim.value, bound))
    && (d.result.Some? ==> d.claim.Some? && Publishable(job, d.result.value, d.claim.value, bound))
  }

  predicate Checked(job: string, now: int, first: Inspected, second: Inspected, sources: map<string, string>,
                    bound: Bound) {
    && ValidRequest(first.request) && ValidRequest(second.request)
    && first.request.id == job && second.request.id == job
    && first.request.campaign == bound.campaign && first.request.selection == bound.selection
    && second.request.campaign == bound.campaign
    && WithinCeiling(first, bound) && InWindow(now, second.request)
    && sources.Keys == RowNames(first.request.sources) && RowsDecode(first.request.sources, sources)
  }

  predicate GoodTaker(t: Taker, s: State, bound: Bound) {
    match t
    case Ready(job, now, first, second, sources) => Checked(job, now, first, second, sources, bound)
    case Made(job, now, first, second, sources) =>
      Checked(job, now, first, second, sources, bound) && job in s.replies
    case Claimed(job, now, first, second, sources) =>
      && Checked(job, now, first, second, sources, bound)
      && job in s.replies && s.replies[job].claim.Some? && s.replies[job].claim.value.claimedAt == now
    case Returned(job, snap) =>
      && Checked(job, snap.claim.claimedAt, Inspected(snap.request, snap.config), Inspected(snap.request, snap.config),
                 snap.sources, bound)
      && job in s.replies && s.replies[job].claim == Some(snap.claim)
    case _ => true
  }

  /** At most one take holds a reply directory it made but has not yet claimed. */
  predicate OneMaker(s: State) {
    forall p, q :: p in s.takers && q in s.takers && p != q && s.takers[p].Made?
      ==> !(s.takers[q].job == s.takers[p].job && (s.takers[q].Made? || s.takers[q].Claimed?))
  }

  predicate GoodWaiter(w: Waiter, s: State, bound: Bound) {
    && Submitted(s, w.request)
    && (w.Delivered? ==>
          && ValidResult(w.result, w.request, bound.controller)
          && w.request.id in s.replies && s.replies[w.request.id].result == Some(w.result))
  }

  /** A published claim was admitted inside the window of the request inspected for it. */
  predicate AdmittedInWindow(e: Event, bound: Bound) {
    e.ClaimPublished? ==>
      && e.claim.id == e.job && e.inspected.id == e.job && ValidRequest(e.inspected) && InWindow(e.claim.claimedAt, e.inspected)
      && e.inspected.campaign == bound.campaign
  }

  predicate GoodSubmission(id: string, request: Request, bound: Bound) {
    request.id == id && ValidRequest(request) && request.expires <= bound.deadline
  }

  ghost predicate Inv(s: State, bound: Bound) {
    && (forall id :: id in s.submitted ==> GoodSubmission(id, s.submitted[id], bound))
    && (forall job :: job in s.replies ==> GoodDir(job, s.replies[job], bound))
    && (forall p :: p in s.takers ==> GoodTaker(s.takers[p], s, bound))
    && (forall w :: w in s.waiters ==> GoodWaiter(s.waiters[w], s, bound))
    && (forall i :: 0 <= i < |s.log| ==> AdmittedInWindow(s.log[i], bound))
    && OneMaker(s)
    && Tallied(s)
  }
}
