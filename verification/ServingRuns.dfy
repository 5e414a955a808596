/** The check that a serving result holds every case of its workload exactly once. */
module ServingRuns {
  import opened Results

  datatype Key = Key(context: int, concurrency: int, repetition: int)

  datatype Request = Request(ok: bool, tokens: int, ttft: Option<real>, latency: Option<real>)

  /** One measured run; a time is absent when it is no finite number. */
  datatype Run = Run(key: Key, failures: int, cacheVerified: bool, wall: Option<real>, requests: seq<Request>)

  predicate PositiveTime(t: Option<real>) { t.Some? && t.value > 0.0 }

  predicate RequestOk(r: Request, tokens: int) {
    r.ok && r.tokens == tokens && PositiveTime(r.ttft) && PositiveTime(r.latency)
  }

  predicate RunOk(run: Run, expected: map<Key, int>, perWorker: int) {
    && run.key in expected && run.failures == 0 && run.cacheVerified && PositiveTime(run.wall)
    && |run.requests| == run.key.concurrency * perWorker
    && forall i :: 0 <= i < |run.requests| ==> RequestOk(run.requests[i], expected[run.key])
  }

  predicate KeysApart(runs: seq<Run>) {
    forall i, j :: 0 <= i < j < |runs| ==> runs[i].key != runs[j].key
  }

  function Keys(runs: seq<Run>): set<Key> {
    set i | 0 <= i < |runs| :: runs[i].key
  }

  method CheckRequests(requests: seq<Request>, tokens: int) returns (ok: bool)
    ensures ok <==> forall i :: 0 <= i < |requests| ==> RequestOk(requests[i], tokens)
  {
    var i := 0;
    while i < |requests|
      invariant 0 <= i <= |requests|
      invariant forall k :: 0 <= k < i ==> RequestOk(requests[k], tokens)
    {
      var r := requests[i];
      if !r.ok || r.tokens != tokens || r.ttft.None? || r.latency.None? { return false; }
      if r.ttft.value <= 0.0 || r.latency.value <= 0.0 { return false; }
      i := i + 1;
    }
    ok := true;
  }

  lemma OneMoreRun(runs: seq<Run>, i: nat)
    requires i < |runs|
    ensures Keys(runs[..i + 1]) == Keys(runs[..i]) + {runs[i].key}
    ensures KeysApart(runs[..i + 1]) <==> KeysApart(runs[..i]) && runs[i].key !in Keys(runs[..i])
    ensures KeysApart(runs) ==> KeysApart(runs[..i + 1])
  {
    var front, next := runs[..i], runs[..i + 1];
    assert next == front + [runs[i]];
    forall key ensures key in Keys(next) <==> key in Keys(front) || key == runs[i].key {
      if key in Keys(front) {
        var k :| 0 <= k < |front| && front[k].key == key;
        assert next[k].key == key;
      }
      assert next[i].key == runs[i].key;
    }
    if runs[i].key in Keys(front) {
      var k :| 0 <= k < |front| && front[k].key == runs[i].key;
      assert next[k].key == next[i].key;
    }
    if KeysApart(next) {
      forall k, l | 0 <= k < l < |front| ensures front[k].key != front[l].key {
        assert next[k] == front[k] && next[l] == front[l];
      }
    }
  }

  /** Accepted exactly when every run is sound and the runs' cases are the expected ones, each once. */
  method CheckRuns(runs: seq<Run>, expected: map<Key, int>, perWorker: int) returns (ok: bool)
    ensures ok <==>
            && (forall i :: 0 <= i < |runs| ==> RunOk(runs[i], expected, perWorker))
            && KeysApart(runs) && Keys(runs) == expected.Keys
  {
    var seen: set<Key>, i := {}, 0;
    while i < |runs|
      invariant 0 <= i <= |runs|
      invariant forall k :: 0 <= k < i ==> RunOk(runs[k], expected, perWorker)
      invariant KeysApart(runs[..i]) && seen == Keys(runs[..i])
    {
      var run := runs[i];
      OneMoreRun(runs, i);
      if run.key !in expected || run.key in seen || run.failures != 0 || !run.cacheVerified { return false; }
      seen := seen + {run.key};
      if run.wall.None? || run.wall.value <= 0.0 || |run.requests| != run.key.concurrency * perWorker { return false; }
      var sound := CheckRequests(run.requests, expected[run.key]);
      if !sound {
        assert !RunOk(run, expected, perWorker);
        return false;
      }
      i := i + 1;
    }
    assert runs[..i] == runs;
    ok := seen == expected.Keys;
  }

  lemma {:induction false} DistinctCount(runs: seq<Run>)
    requires KeysApart(runs)
    ensures |Keys(runs)| == |runs|
  {
    if runs != [] {
      var i := |runs| - 1;
      OneMoreRun(runs, i);
      assert runs[..i + 1] == runs;
      DistinctCount(runs[..i]);
    }
  }

  /** An accepted result has one run a case and nothing else. */
  lemma OneRunEach(runs: seq<Run>, expected: map<Key, int>)
    requires KeysApart(runs) && Keys(runs) == expected.Keys
    ensures |runs| == |expected|
    ensures forall key :: key in expected ==> exists i :: 0 <= i < |runs| && runs[i].key == key
  {
    DistinctCount(runs);
    assert |expected.Keys| == |expected|;
    forall key | key in expected ensures exists i :: 0 <= i < |runs| && runs[i].key == key {
      assert key in Keys(runs);
    }
  }
}
