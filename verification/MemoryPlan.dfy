/** The observed memory windows, the envelope and the candidate size made from them. */
module MemoryPlan {
  import opened Results

  const MIB := 1024 * 1024
  const SECOND := 1000000000
  const STEP := 256

  // ----- one window

  /** One sample after its counters were parsed; `scope` is the cgroup identity and path. */
  datatype Sample = Sample(scope: nat, ns: int, unixNs: int, current: int, peak: int, maximum: int, shmem: int,
                           file: int, pressureEvents: bool, swap: int, psiSome: int, psiFull: int, totalKib: int,
                           swapTotal: int, available: int)

  datatype Window = Window(scope: nat, firstNs: int, lastNs: int, firstUnix: int, lastUnix: int, currentMax: int,
                           lifetimePeak: int, availableMin: int, envelope: int)

  predicate SampleOk(s: Sample, limitMib: int, totalMib: int) {
    && s.maximum == limitMib * MIB && 0 < s.current <= s.peak <= s.maximum
    && s.shmem <= s.file && s.shmem <= s.current
    && !s.pressureEvents && s.swap == 0
    && s.totalKib / 1024 == totalMib && s.swapTotal == 0
  }

  /** A later sample of the same cgroup, soon after, without a reset or new pressure. */
  predicate Follows(first: Sample, previous: Sample, row: Sample) {
    && row.scope == first.scope
    && 0 < row.ns - previous.ns <= 30 * SECOND
    && row.unixNs > previous.unixNs && row.peak >= previous.peak
    && row.psiSome == previous.psiSome && row.psiFull == previous.psiFull
  }

  predicate WindowOk(samples: seq<Sample>, limitMib: int, totalMib: int, minimumSeconds: int) {
    && |samples| >= 2
    && (forall i :: 0 <= i < |samples| ==> SampleOk(samples[i], limitMib, totalMib))
    && (forall i :: 0 < i < |samples| ==> Follows(samples[0], samples[i - 1], samples[i]))
    && samples[|samples| - 1].ns - samples[0].ns >= minimumSeconds * SECOND
  }

  predicate MaxPeak(samples: seq<Sample>, peak: int) {
    && (forall i :: 0 <= i < |samples| ==> samples[i].peak <= peak)
    && exists i :: 0 <= i < |samples| && samples[i].peak == peak
  }

  predicate MaxCurrent(samples: seq<Sample>, current: int) {
    && (forall i :: 0 <= i < |samples| ==> samples[i].current <= current)
    && exists i :: 0 <= i < |samples| && samples[i].current == current
  }

  predicate MinAvailable(samples: seq<Sample>, available: int) {
    && (forall i :: 0 <= i < |samples| ==> samples[i].available >= available)
    && exists i :: 0 <= i < |samples| && samples[i].available == available
  }

  /** What the summary of a window says. */
  predicate Summarises(w: Window, samples: seq<Sample>, shmMib: int)
    requires samples != []
  {
    var first, last := samples[0], samples[|samples| - 1];
    && w.scope == first.scope && w.firstNs == first.ns && w.lastNs == last.ns
    && w.firstUnix == first.unixNs && w.lastUnix == last.unixNs
    && MaxCurrent(samples, w.currentMax) && MaxPeak(samples, w.lifetimePeak) && MinAvailable(samples, w.availableMin)
    && w.envelope == w.lifetimePeak + shmMib * MIB
  }

  /** One sample: its limit, ordered counters, no pressure, and a host without swap. */
  method CheckSample(s: Sample, limitMib: int, totalMib: int) returns (ok: bool)
    ensures ok <==> SampleOk(s, limitMib, totalMib)
  {
    if s.maximum != limitMib * 1048576 || s.current <= 0 || s.current > s.peak || s.peak > s.maximum { return false; }
    if s.shmem > s.current || s.shmem > s.file { return false; }
    if s.pressureEvents || s.swap != 0 || s.swapTotal != 0 { return false; }
    ok := s.totalKib / 1024 == totalMib;
  }

  /** A sample after another: the same cgroup, at most thirty seconds later, its counters monotone. */
  method CheckSuccession(first: Sample, previous: Sample, row: Sample) returns (ok: bool)
    ensures ok <==> Follows(first, previous, row)
  {
    if row.scope != first.scope { return false; }
    if row.ns <= previous.ns || row.ns > previous.ns + 30000000000 || row.unixNs <= previous.unixNs { return false; }
    if row.peak < previous.peak { return false; }
    ok := (row.psiSome, row.psiFull) == (previous.psiSome, previous.psiFull);
  }

  method ParseSamples(samples: seq<Sample>, limitMib: int, totalMib: int) returns (ok: bool)
    ensures ok <==> forall i :: 0 <= i < |samples| ==> SampleOk(samples[i], limitMib, totalMib)
  {
    var i := 0;
    while i < |samples|
      invariant 0 <= i <= |samples|
      invariant forall k :: 0 <= k < i ==> SampleOk(samples[k], limitMib, totalMib)
    {
      var sound := CheckSample(samples[i], limitMib, totalMib);
      if !sound { return false; }
      i := i + 1;
    }
    ok := true;
  }

  method Extremes(samples: seq<Sample>) returns (current: int, peak: int, available: int)
    requires samples != []
    ensures MaxCurrent(samples, current) && MaxPeak(samples, peak) && MinAvailable(samples, available)
  {
    current, peak, available := samples[0].current, samples[0].peak, samples[0].available;
    ghost var c, p, a := 0, 0, 0;
    var i := 1;
    while i < |samples|
      invariant 1 <= i <= |samples|
      invariant 0 <= c < i && samples[c].current == current && 0 <= p < i && samples[p].peak == peak
      invariant 0 <= a < i && samples[a].available == available
      invariant forall k :: 0 <= k < i ==> samples[k].current <= current && samples[k].peak <= peak
      invariant forall k :: 0 <= k < i ==> samples[k].available >= available
    {
      if samples[i].current > current { current, c := samples[i].current, i; }
      if samples[i].peak > peak { peak, p := samples[i].peak, i; }
      if samples[i].available < available { available, a := samples[i].available, i; }
      i := i + 1;
    }
  }

  method Observe(samples: seq<Sample>, limitMib: int, shmMib: int, totalMib: int, minimumSeconds: int)
    returns (w: Option<Window>)
    ensures w.Some? <==> WindowOk(samples, limitMib, totalMib, minimumSeconds)
    ensures w.Some? ==> Summarises(w.value, samples, shmMib)
  {
    if |samples| < 2 { return None; }
    var ok := ParseSamples(samples, limitMib, totalMib);
    if !ok { return None; }
    var i := 1;
    while i < |samples|
      invariant 1 <= i <= |samples|
      invariant forall k :: 0 < k < i ==> Follows(samples[0], samples[k - 1], samples[k])
    {
      var next := CheckSuccession(samples[0], samples[i - 1], samples[i]);
      if !next { return None; }
      i := i + 1;
    }
    var first, last := samples[0], samples[|samples| - 1];
    if last.ns - first.ns < minimumSeconds * 1000000000 { return None; }
    var current, peak, available := Extremes(samples);
    w := Some(Window(first.scope, first.ns, last.ns, first.unixNs, last.unixNs, current, peak, available,
                     peak + shmMib * 1048576));
  }

  lemma {:induction false} PeaksRise(samples: seq<Sample>, limitMib: int, totalMib: int, minimumSeconds: int, i: nat, j: nat)
    requires WindowOk(samples, limitMib, totalMib, minimumSeconds) && i <= j < |samples|
    ensures samples[i].peak <= samples[j].peak
    decreases j
  {
    if i < j {
      PeaksRise(samples, limitMib, totalMib, minimumSeconds, i, j - 1);
      assert Follows(samples[0], samples[j - 1], samples[j]);
    }
  }

  /** In an accepted window the lifetime peak is the last one read, it bounds every sample's current
      use, and no two samples are more than thirty seconds apart. */
  lemma PeakIsLast(samples: seq<Sample>, limitMib: int, shmMib: int, totalMib: int, minimumSeconds: int, w: Window)
    requires WindowOk(samples, limitMib, totalMib, minimumSeconds) && Summarises(w, samples, shmMib)
    ensures w.lifetimePeak == samples[|samples| - 1].peak
    ensures forall i :: 0 <= i < |samples| ==> samples[i].current <= w.lifetimePeak <= limitMib * MIB
    ensures w.currentMax <= w.lifetimePeak
  {
    var k :| 0 <= k < |samples| && samples[k].peak == w.lifetimePeak;
    PeaksRise(samples, limitMib, totalMib, minimumSeconds, k, |samples| - 1);
    assert SampleOk(samples[k], limitMib, totalMib);
    forall i | 0 <= i < |samples|
      ensures samples[i].current <= w.lifetimePeak
    {
      assert SampleOk(samples[i], limitMib, totalMib);
    }
  }

  // ----- the arithmetic of the candidate

  /** The smallest whole number not below a / b. */
  function CeilDiv(a: int, b: int): int
    requires b > 0
  {
    -((-a) / b)
  }

  lemma CeilDivMeans(a: int, b: int)
    requires b > 0
    ensures b * CeilDiv(a, b) - b < a <= b * CeilDiv(a, b)
  {
    var q, r := (-a) / b, (-a) % b;
    assert -a == b * q + r && 0 <= r < b;
    assert b * CeilDiv(a, b) == -(b * q) by { assert CeilDiv(a, b) == -q; Negated(b, q); }
  }

  lemma Negated(b: int, q: int)
    ensures b * (-q) == -(b * q)
  {
  }

  function Larger(a: int, b: int): int { if a < b then b else a }

  function Headroom(envelope: int, marginMib: int, marginPercent: int): int {
    Larger(marginMib * MIB, CeilDiv(envelope * marginPercent, 100))
  }

  function Proposed(envelope: int, headroom: int): int {
    CeilDiv(envelope + headroom, STEP * MIB) * STEP
  }

  /** The smallest candidate is the next multiple of 256 MiB at or above envelope and headroom. */
  lemma ProposedMeans(envelope: int, headroom: int)
    ensures var proposed := Proposed(envelope, headroom);
            && proposed % STEP == 0
            && envelope + headroom <= proposed * MIB < envelope + headroom + STEP * MIB
  {
    CeilDivMeans(envelope + headroom, STEP * MIB);
  }

  lemma HeadroomMeans(envelope: int, marginMib: int, marginPercent: int)
    ensures var headroom := Headroom(envelope, marginMib, marginPercent);
            headroom >= marginMib * MIB && 100 * headroom >= envelope * marginPercent
  {
    CeilDivMeans(envelope * marginPercent, 100);
  }

  // ----- the plan

  /** One cold or warm observation; `bound` holds the identity and coverage checks this model does
      not look into. */
  datatype Observation = Observation(cold: bool, uid: nat, bound: bool, startup: seq<Sample>, steady: seq<Sample>)

  datatype Record = Record(cold: bool, uid: nat, startup: Window, steady: Window)

  datatype Budget = Budget(limitMib: int, shmMib: int, totalMib: int, allocatableMib: int, otherMib: int,
                           marginMib: int, marginPercent: int, minimumSeconds: int, chosen: Option<int>)

  datatype Candidate = Candidate(selected: int, proposed: int, envelope: int, headroom: int)

  predicate BudgetOk(b: Budget) {
    && b.marginMib >= 512 && 10 <= b.marginPercent <= 100 && 30 <= b.minimumSeconds <= 21600
    && b.otherMib >= 0 && 0 < b.shmMib < b.limitMib
  }

  predicate ObservationOk(o: Observation, b: Budget) {
    && o.bound
    && WindowOk(o.startup, b.limitMib, b.totalMib, 0)
    && WindowOk(o.steady, b.limitMib, b.totalMib, b.minimumSeconds)
    && o.startup[0].scope == o.steady[0].scope
    && o.startup[|o.startup| - 1].unixNs <= o.steady[0].unixNs
  }

  predicate Recorded(r: Record, o: Observation, b: Budget) {
    && ObservationOk(o, b) && r.cold == o.cold && r.uid == o.uid
    && Summarises(r.startup, o.startup, b.shmMib) && Summarises(r.steady, o.steady, b.shmMib)
  }

  function Phase(observations: seq<Observation>, cold: bool): nat {
    if observations == [] then 0
    else
      var last := observations[|observations| - 1];
      Phase(observations[..|observations| - 1], cold) + if last.cold == cold then 1 else 0
  }

  predicate UidsApart(observations: seq<Observation>) {
    forall i, j :: 0 <= i < j < |observations| ==> observations[i].uid != observations[j].uid
  }

  function Uids(observations: seq<Observation>): set<nat> {
    set i | 0 <= i < |observations| :: observations[i].uid
  }

  predicate ObservationsOk(observations: seq<Observation>, b: Budget) {
    && (forall i :: 0 <= i < |observations| ==> ObservationOk(observations[i], b))
    && UidsApart(observations)
    && Phase(observations, true) >= 2 && Phase(observations, false) >= 2 && |observations| <= 20
  }

  method ObserveRun(o: Observation, b: Budget) returns (record: Option<Record>)
    ensures record.Some? <==> ObservationOk(o, b)
    ensures record.Some? ==> Recorded(record.value, o, b)
  {
    if !o.bound { return None; }
    var startup := Observe(o.startup, b.limitMib, b.shmMib, b.totalMib, 0);
    if startup.None? { return None; }
    var steady := Observe(o.steady, b.limitMib, b.shmMib, b.totalMib, b.minimumSeconds);
    if steady.None? { return None; }
    if startup.value.scope != steady.value.scope || startup.value.lastUnix > steady.value.firstUnix { return None; }
    record := Some(Record(o.cold, o.uid, startup.value, steady.value));
  }

  predicate AllRecorded(records: seq<Record>, observations: seq<Observation>, b: Budget) {
    && |records| == |observations|
    && forall i :: 0 <= i < |records| ==> Recorded(records[i], observations[i], b)
  }

  lemma OneMoreObservation(observations: seq<Observation>, i: nat)
    requires i < |observations|
    ensures var front, o, next := observations[..i], observations[i], observations[..i + 1];
            && next == front + [o]
            && (forall cold :: Phase(next, cold) == Phase(front, cold) + if o.cold == cold then 1 else 0)
            && Uids(next) == Uids(front) + {o.uid}
            && (UidsApart(next) <==> UidsApart(front) && o.uid !in Uids(front))
  {
    var front, o, next := observations[..i], observations[i], observations[..i + 1];
    assert next == front + [o] && next[..i] == front;
    forall uid ensures uid in Uids(next) <==> uid in Uids(front) || uid == o.uid {
      if uid in Uids(front) {
        var k :| 0 <= k < |front| && front[k].uid == uid;
        assert next[k].uid == uid;
      }
      assert next[i].uid == o.uid;
    }
    if o.uid in Uids(front) {
      var k :| 0 <= k < |front| && front[k].uid == o.uid;
      assert next[k].uid == next[i].uid;
    }
    if UidsApart(next) {
      forall k, l | 0 <= k < l < |front| ensures front[k].uid != front[l].uid {
        assert next[k] == front[k] && next[l] == front[l];
      }
    }
  }

  method ObserveAll(observations: seq<Observation>, b: Budget) returns (records: Option<seq<Record>>)
    ensures records.Some? <==> ObservationsOk(observations, b)
    ensures records.Some? ==> AllRecorded(records.value, observations, b)
  {
    var cold, warm, seen: set<nat>, found: seq<Record>, i := 0, 0, {}, [], 0;
    while i < |observations|
      invariant 0 <= i <= |observations|
      invariant cold == Phase(observations[..i], true) && warm == Phase(observations[..i], false)
      invariant seen == Uids(observations[..i]) && UidsApart(observations[..i])
      invariant AllRecorded(found, observations[..i], b)
    {
      var o := observations[i];
      OneMoreObservation(observations, i);
      if o.uid in seen {
        RepeatedUid(observations, i);
        return None;
      }
      var record := ObserveRun(o, b);
      if record.None? { return None; }
      RecordedNext(found, observations, i, b, record.value);
      found, seen := found + [record.value], seen + {o.uid};
      if o.cold { cold := cold + 1; } else { warm := warm + 1; }
      i := i + 1;
    }
    assert observations[..i] == observations;
    RecordedAreOk(found, observations, b);
    if cold < 2 || warm < 2 || i > 20 { return None; }
    records := Some(found);
  }

  lemma RecordedNext(found: seq<Record>, observations: seq<Observation>, i: nat, b: Budget, record: Record)
    requires i < |observations| && AllRecorded(found, observations[..i], b) && Recorded(record, observations[i], b)
    ensures AllRecorded(found + [record], observations[..i + 1], b)
  {
    forall k | 0 <= k < i + 1
      ensures Recorded((found + [record])[k], observations[..i + 1][k], b)
    {
      if k < i { assert Recorded(found[k], observations[..i][k], b); }
    }
  }

  lemma RecordedAreOk(found: seq<Record>, observations: seq<Observation>, b: Budget)
    requires AllRecorded(found, observations, b)
    ensures forall i :: 0 <= i < |observations| ==> ObservationOk(observations[i], b)
  {
    forall i | 0 <= i < |observations| ensures ObservationOk(observations[i], b) {
      assert Recorded(found[i], observations[i], b);
    }
  }

  lemma RepeatedUid(observations: seq<Observation>, i: nat)
    requires i < |observations| && observations[i].uid in Uids(observations[..i])
    ensures !UidsApart(observations)
  {
    var k :| 0 <= k < i && observations[..i][k].uid == observations[i].uid;
    assert observations[k].uid == observations[i].uid;
  }

  /** The largest envelope of any window. */
  predicate Envelope(records: seq<Record>, envelope: int) {
    && (forall i :: 0 <= i < |records| ==> records[i].startup.envelope <= envelope && records[i].steady.envelope <= envelope)
    && exists i :: 0 <= i < |records| && envelope in [records[i].startup.envelope, records[i].steady.envelope]
  }

  method LargestEnvelope(records: seq<Record>) returns (envelope: int)
    requires records != []
    ensures Envelope(records, envelope)
  {
    envelope := Larger(records[0].startup.envelope, records[0].steady.envelope);
    ghost var at := 0;
    var i := 1;
    while i < |records|
      invariant 1 <= i <= |records| && 0 <= at < i
      invariant envelope in [records[at].startup.envelope, records[at].steady.envelope]
      invariant forall k :: 0 <= k < i ==> records[k].startup.envelope <= envelope && records[k].steady.envelope <= envelope
    {
      var here := Larger(records[i].startup.envelope, records[i].steady.envelope);
      if here > envelope { envelope, at := here, i; }
      i := i + 1;
    }
  }

  /** The highest lifetime peak in any sample of any observation. */
  ghost predicate HighestPeak(observations: seq<Observation>, peak: int) {
    && (forall i :: 0 <= i < |observations| ==> AtMost(observations[i], peak))
    && exists i :: 0 <= i < |observations| && Reaches(observations[i], peak)
  }

  predicate AtMost(o: Observation, peak: int) {
    && (forall k :: 0 <= k < |o.startup| ==> o.startup[k].peak <= peak)
    && (forall k :: 0 <= k < |o.steady| ==> o.steady[k].peak <= peak)
  }

  predicate Reaches(o: Observation, peak: int) {
    || (exists k :: 0 <= k < |o.startup| && o.startup[k].peak == peak)
    || (exists k :: 0 <= k < |o.steady| && o.steady[k].peak == peak)
  }

  lemma OneHighest(observations: seq<Observation>, one: int, two: int)
    requires HighestPeak(observations, one) && HighestPeak(observations, two)
    ensures one == two
  {
    var i :| 0 <= i < |observations| && Reaches(observations[i], one);
    var j :| 0 <= j < |observations| && Reaches(observations[j], two);
    assert AtMost(observations[i], two) && AtMost(observations[j], one);
  }

  function PeakOf(b: Budget, envelope: int): int { envelope - b.shmMib * MIB }

  lemma RecordPeak(r: Record, o: Observation, b: Budget, envelope: int)
    requires Recorded(r, o, b) && r.startup.envelope <= envelope && r.steady.envelope <= envelope
    ensures AtMost(o, PeakOf(b, envelope))
    ensures envelope in [r.startup.envelope, r.steady.envelope] ==> Reaches(o, PeakOf(b, envelope))
  {
  }

  lemma EnvelopeIsPeak(records: seq<Record>, observations: seq<Observation>, b: Budget, envelope: int)
    requires AllRecorded(records, observations, b) && Envelope(records, envelope)
    ensures HighestPeak(observations, PeakOf(b, envelope))
  {
    forall i | 0 <= i < |observations|
      ensures AtMost(observations[i], PeakOf(b, envelope))
      ensures envelope in [records[i].startup.envelope, records[i].steady.envelope] ==>
        Reaches(observations[i], PeakOf(b, envelope))
    {
      assert Recorded(records[i], observations[i], b);
      RecordPeak(records[i], observations[i], b, envelope);
    }
  }

  function SelectedSize(b: Budget, proposed: int): int {
    if b.chosen.None? then proposed else b.chosen.value
  }

  /** The size covers the evidence, is below the baseline, and fits beside the other workloads. */
  predicate SizeOk(b: Budget, proposed: int) {
    && proposed <= SelectedSize(b, proposed) < b.limitMib
    && SelectedSize(b, proposed) + b.otherMib <= b.allocatableMib
  }

  function ProposedFor(b: Budget, peak: int): int {
    var envelope := peak + b.shmMib * MIB;
    Proposed(envelope, Headroom(envelope, b.marginMib, b.marginPercent))
  }

  predicate Planned(records: seq<Record>, observations: seq<Observation>, b: Budget, c: Candidate) {
    AllRecorded(records, observations, b) && Envelope(records, c.envelope) && Sized(b, c)
  }

  /** The candidate's numbers follow from its envelope, and its size fits. */
  predicate Sized(b: Budget, c: Candidate) {
    && c.headroom == Headroom(c.envelope, b.marginMib, b.marginPercent)
    && c.proposed == Proposed(c.envelope, c.headroom)
    && c.selected == SelectedSize(b, c.proposed)
    && SizeOk(b, c.proposed)
  }

  /** Some peak is the highest one and calls for a size that fits. */
  ghost predicate Fits(observations: seq<Observation>, b: Budget) {
    exists peak :: HighestPeak(observations, peak) && SizeOk(b, ProposedFor(b, peak))
  }

  lemma HighestDecides(observations: seq<Observation>, b: Budget, peak: int)
    requires HighestPeak(observations, peak)
    ensures Fits(observations, b) <==> SizeOk(b, ProposedFor(b, peak))
  {
    if Fits(observations, b) {
      var other :| HighestPeak(observations, other) && SizeOk(b, ProposedFor(b, other));
      OneHighest(observations, peak, other);
    }
  }

  method Resize(b: Budget, envelope: int) returns (candidate: Option<Candidate>)
    ensures candidate.Some? <==> SizeOk(b, ProposedFor(b, PeakOf(b, envelope)))
    ensures candidate.Some? ==> candidate.value.envelope == envelope && Sized(b, candidate.value)
  {
    var percent := -((-(envelope * b.marginPercent)) / 100);
    var headroom := b.marginMib * 1048576;
    if percent > headroom { headroom := percent; }
    var proposed := -((-(envelope + headroom)) / 268435456) * 256;
    var selected := if b.chosen.None? then proposed else b.chosen.value;
    if selected < proposed || selected >= b.limitMib { return None; }
    if selected + b.otherMib > b.allocatableMib { return None; }
    candidate := Some(Candidate(selected, proposed, envelope, headroom));
  }

  method CheckBudget(b: Budget) returns (ok: bool)
    ensures ok <==> BudgetOk(b)
  {
    if b.marginMib < 512 || b.marginPercent < 10 || b.marginPercent > 100 { return false; }
    if b.minimumSeconds < 30 || b.minimumSeconds > 21600 { return false; }
    ok := b.otherMib >= 0 && b.shmMib > 0 && b.limitMib > b.shmMib;
  }

  /** A plan is made exactly when every observation is accepted and the size that the highest peak
      calls for fits. */
  method Plan(observations: seq<Observation>, b: Budget) returns (plan: Option<Candidate>, ghost records: seq<Record>)
    ensures plan.Some? <==> BudgetOk(b) && ObservationsOk(observations, b) && Fits(observations, b)
    ensures plan.Some? ==> Planned(records, observations, b, plan.value)
  {
    records := [];
    var sound := CheckBudget(b);
    if !sound { return None, records; }
    var found := ObserveAll(observations, b);
    if found.None? { return None, records; }
    records := found.value;
    SomeObserved(observations, b);
    var envelope := LargestEnvelope(found.value);
    EnvelopeIsPeak(records, observations, b, envelope);
    HighestDecides(observations, b, PeakOf(b, envelope));
    plan := Resize(b, envelope);
  }

  lemma SomeObserved(observations: seq<Observation>, b: Budget)
    requires ObservationsOk(observations, b)
    ensures observations != []
  {
    assert observations == [] ==> Phase(observations, true) == 0;
  }

  /** A peak that stays within the envelope is covered, with the shared memory and the headroom. */
  lemma Covered(peak: int, shm: int, margin: int, percent: int, envelope: int, headroom: int, size: int)
    requires peak + shm <= envelope && headroom >= margin && 100 * headroom >= percent && envelope + headroom <= size
    ensures peak + shm + margin <= size && 100 * (peak + shm) + percent <= 100 * size
  {
  }

  lemma LargerSize(proposed: int, selected: int)
    requires proposed <= selected
    ensures proposed * MIB <= selected * MIB
  {
  }

  /** Every accepted candidate covers, for every window of every observation, its lifetime peak, the
      full shared-memory ceiling and the larger headroom; the smallest one exceeds the need by less
      than 256 MiB; and the size is below the baseline and fits the host. */
  lemma CandidateCovers(observations: seq<Observation>, records: seq<Record>, b: Budget, c: Candidate, i: nat, w: Window)
    requires BudgetOk(b) && Planned(records, observations, b, c) && i < |observations|
    requires w in [records[i].startup, records[i].steady]
    ensures w.lifetimePeak + b.shmMib * MIB + b.marginMib * MIB <= c.selected * MIB
    ensures 100 * (w.lifetimePeak + b.shmMib * MIB) + c.envelope * b.marginPercent <= 100 * (c.selected * MIB)
    ensures c.proposed * MIB < c.envelope + c.headroom + STEP * MIB && c.proposed % STEP == 0
    ensures c.selected < b.limitMib && c.selected + b.otherMib <= b.allocatableMib
  {
    HeadroomMeans(c.envelope, b.marginMib, b.marginPercent);
    ProposedMeans(c.envelope, c.headroom);
    LargerSize(c.proposed, c.selected);
    assert Recorded(records[i], observations[i], b);
    Covered(w.lifetimePeak, b.shmMib * MIB, b.marginMib * MIB, c.envelope * b.marginPercent, c.envelope, c.headroom,
            c.selected * MIB);
  }
}
