/** The comparison of two inspected profiles, and its re-derivation before a selection.

    The retained quality runs and their numerical comparison stand behind `matched`. */
module Decision {
  import opened Results
  import opened Sorting
  import opened Gates

  const VARIABLES := {"compiler_backend", "image", "concurrency", "loading_strategy", "loading_threads",
                      "engine_queue", "interactive_priority", "model", "tokenizer", "workload", "hardware",
                      "software", "launch", "resources", "quantization", "coding_corpus", "generation", "profile",
                      "prefix_state", "kv_cache"}

  const NON_EQUIVALENT := {"model", "tokenizer", "workload", "hardware", "quantization", "resources", "concurrency",
                           "coding_corpus", "generation", "profile", "prefix_state"}

  /** The variable under which a differing field must be declared. */
  function DeclaredAs(field: string): string {
    if field in ["model_revision", "producer.model_files_sha256", "producer.model_settings_sha256"] then "model"
    else if field == "tokenizer_sha256" then "tokenizer"
    else if field == "workload_sha256" then "workload"
    else if field == "hardware_sha256" then "hardware"
    else if field == "software_sha256" then "software"
    else if field in ["launch_sha256", "producer.observed_launch_sha256", "producer.launch_settings_sha256"] then "launch"
    else if field == "producer.resources_sha256" then "resources"
    else if field == "producer.experimental_kv" then "kv_cache"
    else if field in ["coding.corpus_sha256", "coding.template_sha256"] then "coding_corpus"
    else if field == "coding.generation" then "generation"
    else field
  }

  datatype Memory = Memory(unknown: bool, source: string, failure: Option<string>, pressure: Option<string>)

  /** An inspected profile: `conditions` holds identity, producer conditions and experiment
      variables by field, `coding` the coding provenance. `retained` holds when the checked kernel run it
      carries is bound to it. */
  datatype Profile = Profile(id: string, measured: bool, servingObserved: bool, servingMeasured: bool, cases: seq<Row>,
                             cold: Startup, warm: Startup, memory: Memory, numericalPassed: bool, codingPassed: bool, retained: bool,
                             conditions: map<string, nat>, coding: map<string, nat>)

  // ----- policy

  datatype Thresholds = Thresholds(schema: int, otherMembers: bool, gain: Option<real>, regression: Option<real>,
                                   noise: Option<real>)

  datatype Limits = Limits(gain: real, regression: real, noise: real)

  predicate Percentage(value: Option<real>) { value.Some? && 0.0 <= value.value <= 100.0 }

  function Policy(t: Thresholds): Result<Limits> {
    if t.schema != 1 || t.otherMembers then Refused
    else if !Percentage(t.gain) || !Percentage(t.regression) || !Percentage(t.noise) then Refused
    else Ok(Limits(t.gain.value, t.regression.value, t.noise.value))
  }

  /** A record's thresholds as a policy again. */
  function Rewrap(l: Limits): Thresholds { Thresholds(1, false, Some(l.gain), Some(l.regression), Some(l.noise)) }

  // ----- differences

  function Value(fields: map<string, nat>, field: string): Option<nat> {
    if field in fields then Some(fields[field]) else None
  }

  function Differing(first: map<string, nat>, second: map<string, nat>): set<string> {
    set f | f in first.Keys + second.Keys && Value(first, f) != Value(second, f)
  }

  predicate DeclarationsOk(declared: seq<string>) {
    && (forall i, j :: 0 <= i < j < |declared| ==> declared[i] != declared[j])
    && (forall i :: 0 <= i < |declared| ==> declared[i] in VARIABLES)
    && !("model" in declared && "hardware" in declared)
  }

  function Differences(first: Profile, second: Profile, declared: seq<string>): Result<set<string>> {
    var differing := Differing(first.conditions, second.conditions);
    if DeclarationsOk(declared) && forall f :: f in differing ==> DeclaredAs(f) in declared then Ok(differing)
    else Refused
  }

  function CodingDifferences(first: Profile, second: Profile, declared: seq<string>): Result<set<string>> {
    var differing := Differing(first.coding, second.coding);
    if forall f :: f in differing ==> DeclaredAs(f) in declared then Ok(differing) else Refused
  }

  predicate Equivalent(fields: set<string>) {
    forall f :: f in fields ==> DeclaredAs(f) !in NON_EQUIVALENT
  }

  // ----- aligning cases

  predicate KeyBefore(a: Key, b: Key) {
    a.context < b.context || (a.context == b.context && a.concurrency < b.concurrency)
  }

  predicate KeyAtMost(a: Key, b: Key) { a == b || KeyBefore(a, b) }

  lemma KeyAtMostIsTotal()
    ensures TotalOrder(KeyAtMost)
  {
  }

  /** The cases listed, each once. */
  function CaseKeys(rows: seq<Row>): seq<Key> {
    if rows == [] then []
    else
      var front, key := CaseKeys(rows[..|rows| - 1]), rows[|rows| - 1].key;
      if key in front then front else front + [key]
  }

  function SortedKeys(rows: seq<Row>): seq<Key> { Sort(CaseKeys(rows), KeyAtMost) }

  /** Rows by case; a later row with the same case replaces an earlier one. */
  function ByKey(rows: seq<Row>): map<Key, Row> {
    if rows == [] then map[] else ByKey(rows[..|rows| - 1])[rows[|rows| - 1].key := rows[|rows| - 1]]
  }

  function KeysOf(rows: seq<Row>): seq<Key> {
    seq(|rows|, i requires 0 <= i < |rows| => rows[i].key)
  }

  datatype AlignmentStatus = Matching | Incompatible | IncompleteServing

  datatype Alignment = Alignment(status: AlignmentStatus, baseline: seq<Key>, candidate: seq<Key>)

  lemma {:induction false} ListedAre(rows: seq<Row>)
    ensures forall key :: key in CaseKeys(rows) <==> key in ByKey(rows)
    ensures forall key :: key in ByKey(rows) ==> ByKey(rows)[key].key == key
    ensures forall i, j :: 0 <= i < j < |CaseKeys(rows)| ==> CaseKeys(rows)[i] != CaseKeys(rows)[j]
  {
    if rows != [] { ListedAre(rows[..|rows| - 1]); }
  }

  lemma SortedAreKeys(rows: seq<Row>)
    ensures forall key :: key in SortedKeys(rows) <==> key in ByKey(rows)
    ensures forall key :: key in ByKey(rows) ==> ByKey(rows)[key].key == key
  {
    ListedAre(rows);
    KeyAtMostIsTotal();
    SortKeeps(CaseKeys(rows), KeyAtMost);
    forall key ensures key in SortedKeys(rows) <==> key in CaseKeys(rows) {
      assert key in SortedKeys(rows) <==> key in multiset(SortedKeys(rows));
      assert key in CaseKeys(rows) <==> key in multiset(CaseKeys(rows));
    }
  }

  function Align(first: Profile, second: Profile): (Alignment, seq<Pair>) {
    if !first.servingObserved || !second.servingObserved then (Alignment(IncompleteServing, [], []), [])
    else
      var left, right := ByKey(first.cases), ByKey(second.cases);
      if left.Keys != right.Keys then
        (Alignment(Incompatible, KeysOf(first.cases), KeysOf(second.cases)), [])
      else
        (Alignment(Matching, KeysOf(first.cases), KeysOf(second.cases)),
         Pairs(SortedKeys(first.cases), left, right))
  }

  function Pairs(keys: seq<Key>, left: map<Key, Row>, right: map<Key, Row>): seq<Pair> {
    if keys == [] then []
    else
      (if keys[0] in left && keys[0] in right then [Pair(keys[0], left[keys[0]], right[keys[0]])] else [])
      + Pairs(keys[1..], left, right)
  }

  method IndexRows(rows: seq<Row>) returns (index: map<Key, Row>)
    ensures index == ByKey(rows)
  {
    index := map[];
    var i := 0;
    while i < |rows|
      invariant 0 <= i <= |rows| && index == ByKey(rows[..i])
    {
      assert rows[..i + 1][..i] == rows[..i];
      index := index[rows[i].key := rows[i]];
      i := i + 1;
    }
    assert rows[..i] == rows;
  }

  // ----- the verdict

  datatype Outcome =
    | Inconclusive | IncomparableConditions | QualityEvidence | RegressesStartup | IncompleteStartup
    | RegressesLatency | IncompleteLatency | AdverseMemory | IncompleteThroughput | Noisy
    | ImprovesThroughput | RegressesThroughput | IncompatibleCases | IncompleteServingEvidence

  datatype Cross = CrossPassed | DeclaredVariant | CrossIncomplete

  datatype Measures = Measures(alignment: Alignment, startup: Gate, latency: Gate, memoryPassed: bool, gains: Gains,
                               ready: bool, paired: bool)

  datatype Comparison = Comparison(baseline: Profile, candidate: Profile, declared: seq<string>, differences: set<string>,
                                   coding: set<string>, cross: Cross, qualityPassed: bool, limits: Limits,
                                   measures: Measures, outcome: Outcome, gain: Option<real>, recommended: bool)

  predicate Adverse(status: Option<string>) {
    status.Some? && status.value !in ["unknown", "none", "not-observed"]
  }

  predicate MemoryFine(m: Memory) {
    m.unknown || (m.source in ["plan-only-unqualified", "unknown"] && !Adverse(m.failure) && !Adverse(m.pressure))
  }

  predicate Sides(pair: Pair) {
    pair.left.failures == 0 && pair.right.failures == 0 && pair.left.throughput.observed && pair.right.throughput.observed
  }

  predicate AllSides(pairs: seq<Pair>) {
    forall i :: 0 <= i < |pairs| ==> Sides(pairs[i])
  }

  predicate NoisyGain(gain: Gain) {
    (if gain.gain < 0.0 then -gain.gain else gain.gain) <= gain.required
  }

  function Measured(first: Profile, second: Profile, limits: Limits): Measures {
    var (alignment, pairs) := Align(first, second);
    Measures(alignment, StartupGate((first.cold, second.cold), (first.warm, second.warm), limits.regression),
             Judge(AllCases(pairs), limits.regression), MemoryFine(first.memory) && MemoryFine(second.memory),
             AllGains(pairs, limits.noise),
             first.measured && second.measured && first.servingMeasured && second.servingMeasured && AllSides(pairs),
             pairs != [])
  }

  predicate AnyNoisy(gains: seq<Gain>) {
    exists i :: 0 <= i < |gains| && NoisyGain(gains[i])
  }

  /** The chain of refusals, the first that applies. */
  function OutcomeOf(m: Measures, equivalent: bool, qualityPassed: bool, limits: Limits): Outcome {
    var gain := Least(m.gains.cases);
    if !(m.ready && m.paired) then
      if m.alignment.status == Incompatible then IncompatibleCases
      else if m.alignment.status == IncompleteServing then IncompleteServingEvidence
      else Inconclusive
    else if m.alignment.status != Matching || !equivalent then IncomparableConditions
    else if !qualityPassed then QualityEvidence
    else if m.startup.status == Regressed then RegressesStartup
    else if m.startup.status != Passed then IncompleteStartup
    else if m.latency.status == Regressed then RegressesLatency
    else if m.latency.status != Passed then IncompleteLatency
    else if !m.memoryPassed then AdverseMemory
    else if m.gains.incomplete != [] then IncompleteThroughput
    else if gain.None? then IncompleteThroughput
    else if AnyNoisy(m.gains.cases) then Noisy
    else if gain.value >= limits.gain then ImprovesThroughput
    else if gain.value <= -limits.regression then RegressesThroughput
    else Inconclusive
  }

  function CompareProfiles(matched: (Profile, Profile) -> bool, first: Profile, second: Profile, declared: seq<string>,
                           thresholds: Thresholds): Result<Comparison>
  {
    if first.id == second.id then Refused
    else
      var differences :- Differences(first, second, declared);
      var coding :- CodingDifferences(first, second, declared);
      var limits :- Policy(thresholds);
      var equivalent := Equivalent(differences + coding);
      var cross := if !first.retained || !second.retained then CrossIncomplete
                   else if !equivalent then DeclaredVariant
                   else if matched(first, second) then CrossPassed else CrossIncomplete;
      var qualityPassed := first.numericalPassed && first.codingPassed && second.numericalPassed && second.codingPassed
                           && cross == CrossPassed && coding == {};
      var m := Measured(first, second, limits);
      var outcome := OutcomeOf(m, equivalent, qualityPassed, limits);
      Ok(Comparison(first, second, declared, differences, coding, cross, qualityPassed, limits, m, outcome,
                    if m.ready && m.paired then Least(m.gains.cases) else None, outcome == ImprovesThroughput))
  }

  /** The record compared again from what it retains, and accepted only when nothing differs. */
  function Validate(matched: (Profile, Profile) -> bool, record: Comparison): Result<Comparison> {
    var expected :- CompareProfiles(matched, record.baseline, record.candidate, record.declared, Rewrap(record.limits));
    if expected == record then Ok(expected) else Refused
  }

  function Select(matched: (Profile, Profile) -> bool, record: Comparison, candidate: string): Result<string> {
    var checked :- Validate(matched, record);
    if candidate != checked.candidate.id || !checked.recommended then Refused else Ok(candidate)
  }

  // ----- the program's own course

  /** No memory evidence is adverse; absent evidence is unknown and not adverse. */
  method CheckMemory(m: Memory) returns (fine: bool)
    ensures fine <==> MemoryFine(m)
  {
    if m.unknown { return true; }
    if m.source != "plan-only-unqualified" && m.source != "unknown" { return false; }
    var statuses, i := [m.failure, m.pressure], 0;
    while i < 2
      invariant 0 <= i <= 2 && forall k :: 0 <= k < i ==> !Adverse(statuses[k])
    {
      if statuses[i].Some? && statuses[i].value != "unknown" && statuses[i].value != "none"
         && statuses[i].value != "not-observed" {
        assert Adverse(statuses[i]);
        return false;
      }
      i := i + 1;
    }
    fine := true;
    assert !Adverse(statuses[0]) && !Adverse(statuses[1]);
  }

  /** No failure on either side of any pair, and both throughputs observed. */
  method CheckSides(pairs: seq<Pair>) returns (ok: bool)
    ensures ok <==> AllSides(pairs)
  {
    var i := 0;
    while i < |pairs|
      invariant 0 <= i <= |pairs| && forall k :: 0 <= k < i ==> Sides(pairs[k])
    {
      var pair := pairs[i];
      if pair.left.failures != 0 || pair.right.failures != 0 { return false; }
      if !pair.left.throughput.observed || !pair.right.throughput.observed { return false; }
      i := i + 1;
    }
    ok := true;
  }

  method FindNoise(gains: seq<Gain>) returns (noisy: bool)
    ensures noisy <==> AnyNoisy(gains)
  {
    var i := 0;
    while i < |gains|
      invariant 0 <= i <= |gains| && forall k :: 0 <= k < i ==> !NoisyGain(gains[k])
    {
      var g := gains[i];
      if -g.required <= g.gain <= g.required {
        assert NoisyGain(gains[i]);
        return true;
      }
      i := i + 1;
    }
    noisy := false;
  }

  method PairUp(keys: seq<Key>, left: map<Key, Row>, right: map<Key, Row>) returns (pairs: seq<Pair>)
    ensures pairs == Pairs(keys, left, right)
  {
    pairs := [];
    var i := 0;
    while i < |keys|
      invariant 0 <= i <= |keys| && pairs + Pairs(keys[i..], left, right) == Pairs(keys, left, right)
    {
      assert keys[i..][1..] == keys[i + 1..];
      if keys[i] in left && keys[i] in right { pairs := pairs + [Pair(keys[i], left[keys[i]], right[keys[i]])]; }
      i := i + 1;
    }
    assert pairs + [] == pairs;
  }

  /** The cases of the two sides, paired by their keys in order. */
  method AlignCases(first: Profile, second: Profile) returns (alignment: Alignment, pairs: seq<Pair>)
    ensures (alignment, pairs) == Align(first, second)
  {
    if !first.servingObserved || !second.servingObserved { return Alignment(IncompleteServing, [], []), []; }
    var left := IndexRows(first.cases);
    var right := IndexRows(second.cases);
    if left.Keys != right.Keys { return Alignment(Incompatible, KeysOf(first.cases), KeysOf(second.cases)), []; }
    pairs := PairUp(SortedKeys(first.cases), left, right);
    alignment := Alignment(Matching, KeysOf(first.cases), KeysOf(second.cases));
  }

  method MeasureBoth(first: Profile, second: Profile, limits: Limits) returns (m: Measures)
    ensures m == Measured(first, second, limits)
  {
    var alignment, pairs := AlignCases(first, second);
    var startup := CheckStartup((first.cold, second.cold), (first.warm, second.warm), limits.regression);
    var latency := LatencyGate(pairs, limits.regression);
    var memory := CheckMemory(first.memory);
    if memory { memory := CheckMemory(second.memory); }
    var gains := ThroughputGate(pairs, limits.noise);
    var ready := CheckSides(pairs);
    if !first.measured || !second.measured || !first.servingMeasured || !second.servingMeasured { ready := false; }
    m := Measures(alignment, startup, latency, memory, gains, ready, |pairs| > 0);
  }

  method Decide(m: Measures, equivalent: bool, qualityPassed: bool, limits: Limits) returns (outcome: Outcome)
    ensures outcome == OutcomeOf(m, equivalent, qualityPassed, limits)
  {
    if !m.ready || !m.paired {
      match m.alignment.status {
        case Incompatible => return IncompatibleCases;
        case IncompleteServing => return IncompleteServingEvidence;
        case Matching => return Inconclusive;
      }
    }
    if m.alignment.status != Matching || !equivalent { return IncomparableConditions; }
    if !qualityPassed { return QualityEvidence; }
    match m.startup.status {
      case Regressed => return RegressesStartup;
      case Incomplete => return IncompleteStartup;
      case Passed =>
    }
    match m.latency.status {
      case Regressed => return RegressesLatency;
      case Incomplete => return IncompleteLatency;
      case Passed =>
    }
    if !m.memoryPassed { return AdverseMemory; }
    var gain := LeastGain(m.gains.cases);
    if |m.gains.incomplete| > 0 || gain.None? { return IncompleteThroughput; }
    var noisy := FindNoise(m.gains.cases);
    if noisy { return Noisy; }
    if limits.gain <= gain.value { return ImprovesThroughput; }
    if gain.value + limits.regression <= 0.0 { return RegressesThroughput; }
    outcome := Inconclusive;
  }

  /** The differences between two maps of fields that are declared, or a refusal. */
  method DeclaredDifferences(first: map<string, nat>, second: map<string, nat>, declared: seq<string>)
    returns (differing: Option<set<string>>)
    ensures differing.Some? <==> forall f :: f in Differing(first, second) ==> DeclaredAs(f) in declared
    ensures differing.Some? ==> differing.value == Differing(first, second)
  {
    var found := (set f | f in first && (f !in second || first[f] != second[f]))
                 + (set f | f in second && (f !in first || second[f] != first[f]));
    assert found == Differing(first, second);
    if exists f :: f in found && DeclaredAs(f) !in declared { return None; }
    differing := Some(found);
  }

  method CheckThresholds(t: Thresholds) returns (limits: Option<Limits>)
    ensures limits.Some? <==> Policy(t).Ok?
    ensures limits.Some? ==> Policy(t) == Ok(limits.value)
  {
    if t.schema != 1 || t.otherMembers || t.gain.None? || t.regression.None? || t.noise.None? { return None; }
    if t.gain.value < 0.0 || t.gain.value > 100.0 { return None; }
    if t.regression.value < 0.0 || t.regression.value > 100.0 { return None; }
    if t.noise.value < 0.0 || t.noise.value > 100.0 { return None; }
    limits := Some(Limits(t.gain.value, t.regression.value, t.noise.value));
  }

  method CheckDeclarations(declared: seq<string>) returns (ok: bool)
    ensures ok <==> DeclarationsOk(declared)
  {
    if exists i, j :: 0 <= i < j < |declared| && declared[i] == declared[j] { return false; }
    if exists i :: 0 <= i < |declared| && declared[i] !in VARIABLES { return false; }
    ok := "model" !in declared || "hardware" !in declared;
  }

  /** Whether the differences leave the profiles comparable, and what their checked runs say of each other. */
  method CrossQuality(matched: (Profile, Profile) -> bool, first: Profile, second: Profile, fields: set<string>)
    returns (equivalent: bool, cross: Cross)
    ensures equivalent == Equivalent(fields)
    ensures cross == if !first.retained || !second.retained then CrossIncomplete
                     else if !equivalent then DeclaredVariant
                     else if matched(first, second) then CrossPassed else CrossIncomplete
  {
    equivalent, cross := !exists f :: f in fields && DeclaredAs(f) in NON_EQUIVALENT, CrossIncomplete;
    if first.retained && second.retained {
      if !equivalent { cross := DeclaredVariant; } else if matched(first, second) { cross := CrossPassed; }
    }
  }

  method CheckQuality(first: Profile, second: Profile, cross: Cross, coding: set<string>) returns (passed: bool)
    ensures passed == (first.numericalPassed && first.codingPassed && second.numericalPassed && second.codingPassed
                       && cross == CrossPassed && coding == {})
  {
    passed := cross == CrossPassed && |coding| == 0;
    if !first.numericalPassed || !first.codingPassed { passed := false; }
    if !second.numericalPassed || !second.codingPassed { passed := false; }
  }

  /** The comparison record of two inspected profiles. */
  method ComparisonRecord(matched: (Profile, Profile) -> bool, first: Profile, second: Profile, declared: seq<string>,
                          thresholds: Thresholds) returns (record: Result<Comparison>)
    ensures record == CompareProfiles(matched, first, second, declared, thresholds)
  {
    hide Measured, OutcomeOf, Equivalent, Differing, DeclarationsOk, DeclaredAs, Least, Percentage;
    if first.id == second.id { return Refused; }
    var sound := CheckDeclarations(declared);
    var differences := DeclaredDifferences(first.conditions, second.conditions, declared);
    if !sound || differences.None? { return Refused; }
    var coding := DeclaredDifferences(first.coding, second.coding, declared);
    if coding.None? { return Refused; }
    var limits := CheckThresholds(thresholds);
    if limits.None? { return Refused; }
    var equivalent, cross := CrossQuality(matched, first, second, differences.value + coding.value);
    var quality := CheckQuality(first, second, cross, coding.value);
    var m := MeasureBoth(first, second, limits.value);
    var outcome := Decide(m, equivalent, quality, limits.value);
    var gain := None;
    if m.ready && m.paired { gain := LeastGain(m.gains.cases); }
    record := Ok(Comparison(first, second, declared, differences.value, coding.value, cross, quality, limits.value, m, outcome,
                            gain, outcome == ImprovesThroughput));
  }

  /** The candidate of a record that validates and recommends it. */
  method SelectCandidate(matched: (Profile, Profile) -> bool, record: Comparison, candidate: string)
    returns (selected: Result<string>)
    ensures selected == Select(matched, record, candidate)
  {
    var again := ComparisonRecord(matched, record.baseline, record.candidate, record.declared,
                                  Thresholds(1, false, Some(record.limits.gain), Some(record.limits.regression),
                                             Some(record.limits.noise)));
    if again.Refused? || again.value != record { return Refused; }
    if candidate != record.candidate.id || !record.recommended { return Refused; }
    selected := Ok(candidate);
  }

  lemma PolicyAgain(t: Thresholds)
    requires Policy(t).Ok?
    ensures Policy(Rewrap(Policy(t).value)) == Policy(t)
  {
  }

  /** Validation accepts exactly the records that some comparison produces. */
  lemma ValidWhen(matched: (Profile, Profile) -> bool, record: Comparison)
    ensures Validate(matched, record) == Ok(record) <==>
            exists thresholds :: CompareProfiles(matched, record.baseline, record.candidate, record.declared, thresholds)
                                 == Ok(record)
  {
    forall t | CompareProfiles(matched, record.baseline, record.candidate, record.declared, t) == Ok(record)
      ensures Validate(matched, record) == Ok(record)
    {
      PolicyAgain(t);
    }
    if Validate(matched, record) == Ok(record) {
      assert CompareProfiles(matched, record.baseline, record.candidate, record.declared, Rewrap(record.limits)) == Ok(record);
    }
  }

  // ----- what a recommendation means

  /** One case with sound rates, a gain above configured noise and observed variation, and at least
      the practical gain. */
  predicate CaseGains(pair: Pair, limits: Limits) {
    && RatesOk(pair.left.throughput, pair.right.throughput)
    && var left, right := pair.left.throughput, pair.right.throughput;
       && 100.0 * right.median >= (100.0 + limits.gain) * left.median
       && Percent(left.median, right.median) > limits.noise
       && Percent(left.median, right.median) > Variation(left, right)
  }

  predicate PairsOk(pairs: seq<Pair>, limits: Limits) {
    && pairs != []
    && forall i :: 0 <= i < |pairs| ==>
         pairs[i].left.failures == 0 && pairs[i].right.failures == 0
         && LatencyOk(pairs[i], limits.regression) && CaseGains(pairs[i], limits)
  }

  predicate QualityOk(matched: (Profile, Profile) -> bool, first: Profile, second: Profile) {
    && first.numericalPassed && first.codingPassed && second.numericalPassed && second.codingPassed
    && first.retained && second.retained && matched(first, second) && Differing(first.coding, second.coding) == {}
  }

  predicate MeasuredBoth(first: Profile, second: Profile) {
    first.measured && second.measured && first.servingMeasured && second.servingMeasured
    && first.servingObserved && second.servingObserved && ByKey(first.cases).Keys == ByKey(second.cases).Keys
  }

  lemma {:induction false} NoNoise(pairs: seq<Pair>, limits: Limits)
    requires 0.0 <= limits.noise && 0.0 <= limits.gain
    requires AllGains(pairs, limits.noise).incomplete == [] && pairs != []
    ensures var gains := AllGains(pairs, limits.noise).cases;
            Least(gains).Some?
            && (!AnyNoisy(gains) && Least(gains).value >= limits.gain <==>
                forall i :: 0 <= i < |pairs| ==> CaseGains(pairs[i], limits))
  {
    var gains := AllGains(pairs, limits.noise).cases;
    GainsMean(pairs, limits.noise);
    LeastMeans(gains, limits.gain);
    forall i | 0 <= i < |pairs|
      ensures CaseGains(pairs[i], limits) <==> gains[i].gain >= limits.gain && !NoisyGain(gains[i])
    {
      GainMeans(pairs[i], limits);
      assert gains[i] == GainOf(pairs[i], limits.noise);
    }
    if !AnyNoisy(gains) && Least(gains).value >= limits.gain {
      forall i | 0 <= i < |pairs| ensures CaseGains(pairs[i], limits) {
        assert !NoisyGain(gains[i]);
      }
    }
  }

  lemma GainMeans(pair: Pair, limits: Limits)
    requires 0.0 <= limits.noise && 0.0 <= limits.gain && RatesOk(pair.left.throughput, pair.right.throughput)
    ensures CaseGains(pair, limits) <==>
            var gain := GainOf(pair, limits.noise); gain.gain >= limits.gain && !NoisyGain(gain)
  {
    PercentMeans(pair.left.throughput.median, pair.right.throughput.median, limits.gain);
  }

  /** The chain reaches its one recommending link exactly when no earlier link stops it. */
  lemma ChainMeans(m: Measures, equivalent: bool, qualityPassed: bool, limits: Limits)
    ensures OutcomeOf(m, equivalent, qualityPassed, limits) == ImprovesThroughput <==>
            && m.ready && m.paired && m.alignment.status == Matching && equivalent && qualityPassed
            && m.startup.status == Passed && m.latency.status == Passed && m.memoryPassed
            && m.gains.incomplete == [] && Least(m.gains.cases).Some?
            && !AnyNoisy(m.gains.cases) && Least(m.gains.cases).value >= limits.gain
  {
  }

  /** The gates on the aligned pairs pass exactly when every pair is sound. */
  lemma PairsMean(pairs: seq<Pair>, limits: Limits)
    requires 0.0 <= limits.noise && 0.0 <= limits.gain && pairs != []
    ensures var gains := AllGains(pairs, limits.noise);
            && AllSides(pairs) && Judge(AllCases(pairs), limits.regression).status == Passed
            && gains.incomplete == [] && Least(gains.cases).Some?
            && !AnyNoisy(gains.cases) && Least(gains.cases).value >= limits.gain
            <==> PairsOk(pairs, limits)
  {
    LatencyMeans(pairs, limits.regression);
    GainsMean(pairs, limits.noise);
    if AllGains(pairs, limits.noise).incomplete == [] {
      NoNoise(pairs, limits);
      assert (forall i :: 0 <= i < |pairs| ==> CaseGains(pairs[i], limits)) ==>
        (AllSides(pairs) <==> forall i :: 0 <= i < |pairs| ==> pairs[i].left.failures == 0 && pairs[i].right.failures == 0);
    }
  }

  lemma AlignedWhen(first: Profile, second: Profile)
    ensures Align(first, second).1 != [] ==> Align(first, second).0.status == Matching
    ensures Align(first, second).0.status == Matching <==>
            first.servingObserved && second.servingObserved && ByKey(first.cases).Keys == ByKey(second.cases).Keys
  {
  }

  lemma ImprovesWhen(first: Profile, second: Profile, limits: Limits, equivalent: bool, qualityPassed: bool)
    requires 0.0 <= limits.noise && 0.0 <= limits.gain
    ensures OutcomeOf(Measured(first, second, limits), equivalent, qualityPassed, limits) == ImprovesThroughput <==>
            && MeasuredBoth(first, second) && PairsOk(Align(first, second).1, limits)
            && equivalent && qualityPassed
            && PhaseOk(first.cold, second.cold, limits.regression) && PhaseOk(first.warm, second.warm, limits.regression)
            && MemoryFine(first.memory) && MemoryFine(second.memory)
  {
    ChainMeans(Measured(first, second, limits), equivalent, qualityPassed, limits);
    AlignedWhen(first, second);
    StartupMeans((first.cold, second.cold), (first.warm, second.warm), limits.regression);
    if Align(first, second).1 != [] {
      PairsMean(Align(first, second).1, limits);
    }
  }

  // ----- what may differ

  /** The two sides do not hold the same value of a field: one has none, or theirs are unequal. */
  predicate Differs(first: map<string, nat>, second: map<string, nat>, field: string) {
    (field in first && (field !in second || second[field] != first[field])) || (field !in first && field in second)
  }

  ghost predicate AllDeclared(first: map<string, nat>, second: map<string, nat>, declared: seq<string>) {
    forall field :: Differs(first, second, field) ==> DeclaredAs(field) in declared
  }

  lemma DifferingAre(first: map<string, nat>, second: map<string, nat>)
    ensures forall field :: field in Differing(first, second) <==> Differs(first, second, field)
  {
  }

  /** Identity, producer and coding fields are declared under the variable they belong to. */
  lemma IdentityTable()
    ensures DeclaredAs("model_revision") == "model" && DeclaredAs("tokenizer_sha256") == "tokenizer"
    ensures DeclaredAs("workload_sha256") == "workload" && DeclaredAs("hardware_sha256") == "hardware"
    ensures DeclaredAs("software_sha256") == "software" && DeclaredAs("launch_sha256") == "launch"
  {
  }

  lemma ProducerTable()
    ensures DeclaredAs("producer.model_files_sha256") == DeclaredAs("producer.model_settings_sha256") == "model"
    ensures DeclaredAs("producer.observed_launch_sha256") == DeclaredAs("producer.launch_settings_sha256") == "launch"
    ensures DeclaredAs("producer.resources_sha256") == "resources" && DeclaredAs("producer.experimental_kv") == "kv_cache"
  {
  }

  lemma CodingTable()
    ensures DeclaredAs("coding.corpus_sha256") == DeclaredAs("coding.template_sha256") == "coding_corpus"
    ensures DeclaredAs("coding.generation") == "generation"
  {
  }

  /** Experiment variables are declared under their own name. */
  lemma OwnNames()
    ensures forall field :: field in ["image", "concurrency", "quantization", "profile", "prefix_state", "engine_queue"] ==>
              DeclaredAs(field) == field
  {
  }

  /** Which variable a differing field belongs to: three fields to "model", three to the launch, two to
      the coding corpus, and every other one to a variable of its own. */
  lemma DeclarationTable()
    ensures forall field :: field in ["model_revision", "producer.model_files_sha256", "producer.model_settings_sha256"] ==>
              DeclaredAs(field) == "model"
    ensures forall field :: field in ["launch_sha256", "producer.observed_launch_sha256", "producer.launch_settings_sha256"] ==>
              DeclaredAs(field) == "launch"
    ensures forall field :: field in ["coding.corpus_sha256", "coding.template_sha256"] ==>
              DeclaredAs(field) == "coding_corpus"
    ensures DeclaredAs("tokenizer_sha256") == "tokenizer" && DeclaredAs("workload_sha256") == "workload"
    ensures DeclaredAs("hardware_sha256") == "hardware" && DeclaredAs("software_sha256") == "software"
    ensures DeclaredAs("producer.resources_sha256") == "resources" && DeclaredAs("producer.experimental_kv") == "kv_cache"
    ensures DeclaredAs("coding.generation") == "generation"
    ensures forall field :: field in ["image", "concurrency", "quantization", "profile", "prefix_state", "engine_queue"] ==>
              DeclaredAs(field) == field
  {
    hide DeclaredAs;
    IdentityTable();
    ProducerTable();
    CodingTable();
    OwnNames();
  }

  /** Every variable is declared once, under a known name, and model and hardware not both. */
  predicate SoundDeclarations(declared: seq<string>) {
    && |set v | v in declared| == |declared|
    && (forall v :: v in declared ==> v in VARIABLES)
    && ("model" !in declared || "hardware" !in declared)
  }

  lemma {:induction false} OncePerName(names: seq<string>)
    ensures |set v | v in names| <= |names|
    ensures |set v | v in names| == |names| <==> forall i, j :: 0 <= i < j < |names| ==> names[i] != names[j]
  {
    if names != [] {
      var front, last := names[..|names| - 1], names[|names| - 1];
      OncePerName(front);
      assert (set v | v in names) == (set v | v in front) + {last};
      if last in front {
        assert (set v | v in names) == (set v | v in front);
        var i :| 0 <= i < |front| && front[i] == last;
        assert names[i] == names[|names| - 1];
      } else {
        assert forall i, j :: 0 <= i < j < |names| ==> (j < |front| ==> names[i] == front[i] && names[j] == front[j]);
      }
    }
  }

  lemma DeclarationsWhen(declared: seq<string>)
    ensures DeclarationsOk(declared) <==> SoundDeclarations(declared)
  {
    OncePerName(declared);
    if SoundDeclarations(declared) {
      forall i | 0 <= i < |declared| ensures declared[i] in VARIABLES { assert declared[i] in declared; }
    }
  }

  /** Two profiles are compared at all exactly when they are two, the declarations and thresholds are
      sound, and every condition and every coding provenance in which they differ is declared. */
  lemma ComparesWhen(matched: (Profile, Profile) -> bool, first: Profile, second: Profile, declared: seq<string>,
                     thresholds: Thresholds)
    ensures CompareProfiles(matched, first, second, declared, thresholds).Ok? <==>
            && first.id != second.id && SoundDeclarations(declared)
            && AllDeclared(first.conditions, second.conditions, declared)
            && AllDeclared(first.coding, second.coding, declared)
            && thresholds.schema == 1 && !thresholds.otherMembers
            && (forall t :: t in {thresholds.gain, thresholds.regression, thresholds.noise} ==>
                  t.Some? && t.value >= 0.0 && t.value <= 100.0)
    ensures CompareProfiles(matched, first, second, declared, thresholds).Ok? ==>
            var record := CompareProfiles(matched, first, second, declared, thresholds).value;
            && record.baseline == first && record.candidate == second && record.declared == declared
            && record.limits == Limits(thresholds.gain.value, thresholds.regression.value, thresholds.noise.value)
            && (forall field :: field in record.differences <==> Differs(first.conditions, second.conditions, field))
            && (forall field :: field in record.coding <==> Differs(first.coding, second.coding, field))
  {
    DeclarationsWhen(declared);
    DifferingAre(first.conditions, second.conditions);
    DifferingAre(first.coding, second.coding);
  }

  /** Every refusal, and when it is given: the first of the chain that applies. */
  lemma OutcomesWhen(m: Measures, equivalent: bool, qualityPassed: bool, limits: Limits)
    ensures var outcome, gain := OutcomeOf(m, equivalent, qualityPassed, limits), Least(m.gains.cases);
            var sided := m.ready && m.paired;
            var alike := sided && m.alignment.status == Matching && equivalent;
            var started := alike && qualityPassed && m.startup.status == Passed;
            var quick := started && m.latency.status == Passed;
            var gained := quick && m.memoryPassed && m.gains.incomplete == [] && gain.Some?;
            var clear := gained && !AnyNoisy(m.gains.cases);
            && (outcome == IncompatibleCases <==> !sided && m.alignment.status == Incompatible)
            && (outcome == IncompleteServingEvidence <==> !sided && m.alignment.status == IncompleteServing)
            && (outcome == IncomparableConditions <==> sided && !alike)
            && (outcome == QualityEvidence <==> alike && !qualityPassed)
            && (outcome == RegressesStartup <==> alike && qualityPassed && m.startup.status == Regressed)
            && (outcome == RegressesLatency <==> started && m.latency.status == Regressed)
            && (outcome == AdverseMemory <==> quick && !m.memoryPassed)
            && (outcome == IncompleteThroughput <==> quick && m.memoryPassed && !gained)
            && (outcome == Noisy <==> gained && !clear)
            && (outcome == ImprovesThroughput <==> clear && gain.value >= limits.gain)
            && (outcome == RegressesThroughput <==> clear && gain.value < limits.gain && gain.value <= -limits.regression)
  {
  }

  /** A candidate is recommended exactly when the profiles differ only as declared and in nothing
      that makes them incomparable, their case sets are equal, quality passed on both sides and
      across, startup, latency and first-token time stay within the allowed regression, no memory
      evidence is adverse, and every case's gain is practical and above noise and variation. */
  lemma CandidateWhen(matched: (Profile, Profile) -> bool, first: Profile, second: Profile, declared: seq<string>,
                      thresholds: Thresholds)
    requires CompareProfiles(matched, first, second, declared, thresholds).Ok?
    ensures var record := CompareProfiles(matched, first, second, declared, thresholds).value;
            var limits := record.limits;
            record.recommended <==>
            && Equivalent(Differing(first.conditions, second.conditions)) && QualityOk(matched, first, second)
            && MeasuredBoth(first, second) && PairsOk(Align(first, second).1, limits)
            && PhaseOk(first.cold, second.cold, limits.regression) && PhaseOk(first.warm, second.warm, limits.regression)
            && MemoryFine(first.memory) && MemoryFine(second.memory)
    ensures CompareProfiles(matched, first, second, declared, thresholds).value.recommended ==>
            && (forall field :: Differs(first.conditions, second.conditions, field) ==>
                  DeclaredAs(field) in declared && DeclaredAs(field) !in NON_EQUIVALENT)
            && first.coding == second.coding
  {
    ComparesWhen(matched, first, second, declared, thresholds);
    SameMaps(first.coding, second.coding);
    var record := CompareProfiles(matched, first, second, declared, thresholds).value;
    ImprovesWhen(first, second, record.limits, Equivalent(record.differences + record.coding), record.qualityPassed);
    if record.coding == {} {
      assert record.differences + record.coding == record.differences;
    }
  }

  lemma SameMaps(first: map<string, nat>, second: map<string, nat>)
    ensures Differing(first, second) == {} ==> first == second
  {
    DifferingAre(first, second);
    if Differing(first, second) == {} {
      forall field ensures field in first <==> field in second { assert !Differs(first, second, field); }
      forall field | field in first ensures first[field] == second[field] { assert !Differs(first, second, field); }
    }
  }
}
