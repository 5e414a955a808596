/** Two promises of the owner exchange that need care, each with the run that shows why. */
module ExchangeFindings {
  import opened Results
  import opened Base64
  import opened Jobs
  import opened Snapshot
  import opened Exchange
  import opened ExchangeTiming

  const BOUND := Bound(Named(1), Named(2), Named(3), 7, Caps(100, 100, 2190), 601000, Named(4))
  const CONFIG := Config(true, 7, Profiler(true, false), NoComponent, Some(1000.0), true)
  const JOB := "aaaaaaaaaaaaaaaaaaaaaaaaaaaaaaaa"
  const ROWS := [Row("a", OfBytes([1]), 1)]
  const REQUEST := Request(1, JOB, Serving, Named(1), Named(2), CanonicalConfig(CONFIG), OfInventory(ROWS), 1000, 601000,
                           100, 440, ROWS, false, false, 0)
  const HONEST := Answers(Text(Some(REQUEST), 0), Text(Some(CONFIG), 0), {"a"}, map["a" := [1]])

  lemma SampleIsValid()
    ensures ValidRequest(REQUEST) && RowsMatch(ROWS, HONEST.sources)
    ensures Inspect(JOB, HONEST, BOUND) == Ok(Inspected(REQUEST, CONFIG))
    ensures WithinCeiling(Inspected(REQUEST, CONFIG), BOUND) && InWindow(1000, REQUEST)
  {
    assert TotalBytes(ROWS) == 1 by {
      assert ROWS[..0] == [];
    }
    assert RowNames(ROWS) == {"a"} by {
      assert ROWS[0].name == "a";
    }
  }

  lemma ExecThen(steps: seq<Step>, step: Step, bound: Bound)
    ensures Exec(Initial, steps + [step], bound) == Apply(Exec(Initial, steps, bound), step, bound)
  {
    assert (steps + [step])[..|steps|] == steps;
  }

  /** A run in which a take samples the clock at 1000, is checked, makes its directory, and is then
      overtaken: the clock reads `later`, and REQUEST.json holds `text`, when the claim comes out. */
  function Overtaken(later: int, text: Text<Request>): seq<Step> {
    [Tick(1000)] + [Take(0, BeginTake(JOB))] + [Take(0, Prepare(HONEST, HONEST.sources, HONEST))]
    + [Take(0, MakeReply)] + [Tick(later)] + [Take(0, PublishClaim(text))]
  }

  lemma OvertakenRun(later: int, text: Text<Request>)
    ensures var s := Exec(Initial, Overtaken(later, text), BOUND);
            && 0 in s.takers && s.takers[0].Claimed? && s.takers[0].job == JOB
            && s.takers[0].first == s.takers[0].second == Inspected(REQUEST, CONFIG)
            && JOB in s.replies && s.replies[JOB].claim == Some(Claim(1, JOB, OfRequest(text), Named(3), 1000, false))
            && |s.log| == 2 && s.log[1] == ClaimPublished(JOB, s.replies[JOB].claim.value, REQUEST, later)
            && s.cancelled == {}
  {
    SampleIsValid();
    var s0 := [Tick(1000)];
    var s1 := s0 + [Take(0, BeginTake(JOB))];
    var s2 := s1 + [Take(0, Prepare(HONEST, HONEST.sources, HONEST))];
    var s3 := s2 + [Take(0, MakeReply)];
    var s4 := s3 + [Tick(later)];
    assert Exec(Initial, s0, BOUND) == Initial.(clock := 1000) by {
      assert s0[..0] == [];
    }
    ExecThen(s0, Take(0, BeginTake(JOB)), BOUND);
    ExecThen(s1, Take(0, Prepare(HONEST, HONEST.sources, HONEST)), BOUND);
    ExecThen(s2, Take(0, MakeReply), BOUND);
    ExecThen(s3, Tick(later), BOUND);
    ExecThen(s4, Take(0, PublishClaim(text)), BOUND);
  }

  lemma OvertakenForward(later: int, text: Text<Request>)
    requires later >= 1000
    ensures Forward(Overtaken(later, text))
  {
    var steps := Overtaken(later, text);
    assert steps[..4][..3] == steps[..3] && steps[..3][..2] == steps[..2] && steps[..2][..1] == steps[..1];
    assert Clock(steps[..1]) == 1000 && Clock(steps[..2]) == 1000 && Clock(steps[..3]) == 1000;
    assert Clock(steps[..4]) == 1000 && steps[..0] == [];
  }

  /** The admission window holds of the recorded time, not of the moment of publication: under a
      clock that is never set back, a claim can come out after the request has expired altogether. */
  lemma ClaimCanComeOutLate()
    ensures Forward(Overtaken(700000, Text(Some(REQUEST), 0)))
    ensures var e := Exec(Initial, Overtaken(700000, Text(Some(REQUEST), 0)), BOUND).log;
            |e| == 2 && e[1].ClaimPublished? && e[1].at > e[1].inspected.expires
  {
    OvertakenForward(700000, Text(Some(REQUEST), 0));
    OvertakenRun(700000, Text(Some(REQUEST), 0));
  }

  /** The claim digests REQUEST.json once more than it was inspected, so a take can return a
      snapshot whose claim binds different text; such a snapshot can never be retained. */
  lemma ClaimCanBindOtherText()
    ensures var s := Exec(Initial, Overtaken(1000, Text(None, 1)) + [Take(0, Recheck)], BOUND);
            && 0 in s.takers && s.takers[0].Returned?
            && s.takers[0].snapshot.request == REQUEST
            && s.takers[0].snapshot.claim.request != CanonicalRequest(REQUEST)
            && !RetainableHeader(s.takers[0].snapshot, BOUND)
  {
    OvertakenRun(1000, Text(None, 1));
    ExecThen(Overtaken(1000, Text(None, 1)), Take(0, Recheck), BOUND);
    ReturnsBound(Exec(Initial, Overtaken(1000, Text(None, 1)), BOUND), OfRequest(Text(None, 1)));
  }

  lemma ReturnsBound(s: State, digest: Sha)
    requires 0 in s.takers && s.takers[0].Claimed? && s.takers[0].job == JOB && s.cancelled == {}
    requires s.takers[0].first == s.takers[0].second == Inspected(REQUEST, CONFIG)
    requires JOB in s.replies && s.replies[JOB].claim == Some(Claim(1, JOB, digest, Named(3), 1000, false))
    ensures var t := Apply(s, Take(0, Recheck), BOUND).takers;
            && 0 in t && t[0].Returned? && t[0].snapshot.request == REQUEST && t[0].snapshot.claim.request == digest
  {
  }
}
