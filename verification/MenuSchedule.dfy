/** The schedule of a derived menu: its groups, and the requests its cases score. */
module MenuSchedule {
  import opened Results
  import opened Bags
  import opened Folding
  import opened Menu
  import opened MenuRows

  // ----- the requests of a list of groups

  function Flat(groups: seq<Group>): seq<nat> {
    if groups == [] then [] else Flat(groups[..|groups| - 1]) + groups[|groups| - 1].ordinals
  }

  predicate DistinctIds(groups: seq<Group>) {
    forall i, j :: 0 <= i < j < |groups| ==> groups[i].id != groups[j].id
  }

  // ----- group names

  predicate FollowRounds(groups: seq<Group>, rounds: seq<Round>) {
    && |groups| == |rounds|
    && forall i :: 0 <= i < |groups| ==>
         groups[i].id == GroupId(rounds[i]) && groups[i].warmup == rounds[i].warmup
         && groups[i].concurrency == |groups[i].ordinals| == |rounds[i].case_.indices|
  }

  /** What one accepted round adds to rows, groups and cases. */
  lemma {:induction false} PlacedRows(originals: seq<Source>, st: State, round: Round, n: nat)
    requires n <= |round.case_.indices| && PlacedUpTo(originals, st, round, n).Some?
    ensures var next := PlacedUpTo(originals, st, round, n).value;
            next.groups == st.groups && next.cases == st.cases && |next.rows| == |st.rows| + n
  {
    if n != 0 { PlacedRows(originals, st, round, n - 1); }
  }

  function GroupOf(originals: seq<Source>, round: Round, base: nat): Group
    requires Indexed(originals, round.case_.indices) && round.case_.indices != []
  {
    Group(GroupId(round), round.warmup, |round.case_.indices|, Count(base, |round.case_.indices|),
          originals[round.case_.indices[0]].task)
  }

  lemma GroupedAdds(originals: seq<Source>, st: State, round: Round)
    requires Grouped(originals, st, round).Some?
    ensures Indexed(originals, round.case_.indices) && round.case_.indices != []
    ensures var next, base := Grouped(originals, st, round).value, |st.rows|;
            && next.groups == st.groups + [GroupOf(originals, round, base)]
            && |next.rows| == base + |round.case_.indices|
            && (round.warmup ==> next.cases == st.cases)
            && (!round.warmup ==>
                  Sampled(st.cases, round.case_.name, |round.case_.indices|, Terms(originals, round.case_),
                          Sample(GroupId(round), Count(base, |round.case_.indices|), round.repetition))
                  == Some(next.cases))
  {
    PlacedRows(originals, st, round, |round.case_.indices|);
  }

  lemma {:induction false} CountJoins(first: nat, m: nat, n: nat)
    ensures Count(first, m) + Count(first + m, n) == Count(first, m + n)
  {
  }

  lemma FlatSnoc(groups: seq<Group>, group: Group)
    ensures Flat(groups + [group]) == Flat(groups) + group.ordinals
  {
    assert (groups + [group])[..|groups|] == groups;
  }

  /** The groups of a run follow its rounds. */
  lemma {:induction false} RunNames(originals: seq<Source>, rounds: seq<Round>)
    requires Run(originals, rounds).Some?
    ensures FollowRounds(Run(originals, rounds).value.groups, rounds)
  {
    if rounds != [] {
      var front, round := rounds[..|rounds| - 1], rounds[|rounds| - 1];
      RunNames(originals, front);
      var st, next := RunNext(originals, rounds);
      FollowNext(st.groups, front, GroupOf(originals, round, |st.rows|), round);
      assert rounds == front + [round];
    }
  }

  /** The last round of a run, and what it adds. */
  lemma RunNext(originals: seq<Source>, rounds: seq<Round>) returns (st: State, next: State)
    requires rounds != [] && Run(originals, rounds).Some?
    ensures Run(originals, rounds[..|rounds| - 1]) == Some(st) && Run(originals, rounds) == Some(next)
    ensures var round := rounds[|rounds| - 1];
            && Indexed(originals, round.case_.indices) && round.case_.indices != []
            && next.groups == st.groups + [GroupOf(originals, round, |st.rows|)]
            && |next.rows| == |st.rows| + |round.case_.indices|
  {
    st, next := Run(originals, rounds[..|rounds| - 1]).value, Run(originals, rounds).value;
    GroupedAdds(originals, st, rounds[|rounds| - 1]);
  }

  lemma FollowNext(groups: seq<Group>, rounds: seq<Round>, group: Group, round: Round)
    requires FollowRounds(groups, rounds) && group.id == GroupId(round) && group.warmup == round.warmup
    requires group.concurrency == |group.ordinals| == |round.case_.indices|
    ensures FollowRounds(groups + [group], rounds + [round])
  {
  }

  /** The groups of a run cut its rows into consecutive stretches. */
  lemma {:induction false} RunPartitions(originals: seq<Source>, rounds: seq<Round>)
    requires Run(originals, rounds).Some?
    ensures var st := Run(originals, rounds).value; Flat(st.groups) == Count(0, |st.rows|)
  {
    if rounds != [] {
      var front, round := rounds[..|rounds| - 1], rounds[|rounds| - 1];
      RunPartitions(originals, front);
      var st, next := RunNext(originals, rounds);
      FlatSnoc(st.groups, GroupOf(originals, round, |st.rows|));
      CountJoins(0, |st.rows|, |round.case_.indices|);
    }
  }

  // ----- distinct identities

  lemma GroupIdInjective(one: Round, two: Round)
    requires !one.warmup && !two.warmup && GroupId(one) == GroupId(two)
    ensures one.case_.name == two.case_.name && one.repetition == two.repetition
  {
    GroupIdParts(one);
    GroupIdParts(two);
    var r, q := "r" + Decimal(one.repetition), "r" + Decimal(two.repetition);
    LastDash(one.case_.name, r, two.case_.name, q);
    assert r[1..] == Decimal(one.repetition) && q[1..] == Decimal(two.repetition);
    DecimalInjective(one.repetition, two.repetition);
  }

  lemma GroupIdParts(round: Round)
    requires !round.warmup
    ensures GroupId(round) == round.case_.name + "-" + ("r" + Decimal(round.repetition))
    ensures NoDash("r" + Decimal(round.repetition))
  {
    DecimalDigits(round.repetition);
    assert "-r" == "-" + "r";
  }

  lemma WarmupIdApart(warmup: Round, round: Round)
    requires warmup in Warmups && !round.warmup
    ensures GroupId(warmup) != GroupId(round)
  {
    GroupIdParts(round);
    var tail := if warmup == Warmups[0] then "c1" else "c2";
    assert GroupId(warmup) == "warmup" + "-" + tail;
    var repetition := "r" + Decimal(round.repetition);
    assert tail[0] == 'c' && repetition[0] == 'r';
    if GroupId(warmup) == GroupId(round) {
      LastDash("warmup", tail, round.case_.name, repetition);
    }
  }

  /** No two timed rounds have one case and one repetition; warmups come first. */
  predicate TimedApart(rounds: seq<Round>) {
    && |rounds| >= 2 && rounds[..2] == Warmups
    && (forall i :: 2 <= i < |rounds| ==> !rounds[i].warmup)
    && forall i, j :: 2 <= i < j < |rounds| ==>
         rounds[i].case_.name != rounds[j].case_.name || rounds[i].repetition != rounds[j].repetition
  }

  predicate DistinctNames(cases: seq<Case>) {
    forall i, j :: 0 <= i < j < |cases| ==> cases[i].name != cases[j].name
  }

  lemma {:induction false} RoundsApart(cases: seq<Case>, samples: nat)
    requires DistinctNames(cases)
    ensures TimedApart(Rounds(cases, samples))
    ensures forall i :: 2 <= i < |Rounds(cases, samples)| ==> Rounds(cases, samples)[i].repetition < samples
  {
    if samples > 0 { RoundsApart(cases, samples - 1); }
  }

  lemma IdsApart(rounds: seq<Round>, i: nat, j: nat)
    requires TimedApart(rounds) && i < j < |rounds|
    ensures GroupId(rounds[i]) != GroupId(rounds[j])
  {
    if i >= 2 {
      if GroupId(rounds[i]) == GroupId(rounds[j]) { GroupIdInjective(rounds[i], rounds[j]); }
    } else {
      assert rounds[i] == rounds[..2][i];
      if j >= 2 {
        WarmupIdApart(rounds[i], rounds[j]);
      } else {
        assert rounds[j] == rounds[..2][j];
      }
    }
  }

  /** The groups of a derived menu have distinct names, are as wide as their lists, and partition the
      requests 0, 1, 2, ... in order. */
  lemma MenuCovers(originals: seq<Source>, cases: seq<Case>, samples: nat)
    requires Derived(originals, cases, samples).Some? && DistinctNames(cases)
    ensures var menu := Derived(originals, cases, samples).value;
            && DistinctIds(menu.groups) && Flat(menu.groups) == Count(0, |menu.rows|)
            && forall i :: 0 <= i < |menu.groups| ==> menu.groups[i].concurrency == |menu.groups[i].ordinals|
  {
    var rounds, menu := Rounds(cases, samples), Derived(originals, cases, samples).value;
    RunNames(originals, rounds);
    RunPartitions(originals, rounds);
    RoundsApart(cases, samples);
    forall i, j | 0 <= i < j < |menu.groups|
      ensures menu.groups[i].id != menu.groups[j].id
    {
      IdsApart(rounds, i, j);
    }
  }

  // ----- every measured request is scored once

  function Sampling(samples: seq<Sample>): multiset<nat> {
    if samples == [] then multiset{}
    else Sampling(samples[..|samples| - 1]) + multiset(samples[|samples| - 1].ordinals)
  }

  /** The ordinals the report scores, whatever order it takes the cases in. */
  function Scored(cases: seq<Entry>): multiset<nat> {
    if cases == [] then multiset{} else Sampling(cases[0].samples) + Scored(cases[1..])
  }

  function TimedFlat(groups: seq<Group>): multiset<nat> {
    if groups == [] then multiset{}
    else
      var last := groups[|groups| - 1];
      TimedFlat(groups[..|groups| - 1]) + if last.warmup then multiset{} else multiset(last.ordinals)
  }

  lemma {:induction false} ScoredConcat(one: seq<Entry>, two: seq<Entry>)
    ensures Scored(one + two) == Scored(one) + Scored(two)
  {
    if one == [] {
      assert one + two == two;
    } else {
      assert (one + two)[1..] == one[1..] + two;
      ScoredConcat(one[1..], two);
    }
  }

  lemma ScoredOne(entry: Entry)
    ensures Scored([entry]) == Sampling(entry.samples)
  {
    assert [entry][1..] == [];
  }

  lemma CutOut<T>(items: seq<T>, k: nat)
    requires k < |items|
    ensures items == items[..k] + ([items[k]] + items[k + 1..])
  {
  }

  lemma ScoredThree(front: seq<Entry>, one: Entry, back: seq<Entry>)
    ensures Scored(front + ([one] + back)) == Scored(front) + Sampling(one.samples) + Scored(back)
  {
    ScoredConcat(front, [one] + back);
    ScoredConcat([one], back);
    ScoredOne(one);
  }

  lemma ScoredWithout(cases: seq<Entry>, k: nat)
    requires k < |cases|
    ensures Scored(cases) == Scored(cases[..k] + cases[k + 1..]) + Sampling(cases[k].samples)
  {
    var front, back := cases[..k], cases[k + 1..];
    CutOut(cases, k);
    ScoredThree(front, cases[k], back);
    ScoredConcat(front, back);
  }

  /** The report takes the cases in name order; any order scores the same requests. */
  lemma {:induction false} ScoredOrderFree(one: seq<Entry>, two: seq<Entry>)
    requires multiset(one) == multiset(two)
    ensures Scored(one) == Scored(two)
    decreases |one|
  {
    if one == [] {
      assert |multiset(two)| == 0;
    } else {
      var k := SameBagHead(one, two);
      ScoredWithout(two, k);
      ScoredOrderFree(one[1..], two[..k] + two[k + 1..]);
    }
  }

  lemma SamplingSnoc(samples: seq<Sample>, sample: Sample)
    ensures Sampling(samples + [sample]) == Sampling(samples) + multiset(sample.ordinals)
  {
    assert (samples + [sample])[..|samples|] == samples;
  }

  lemma ScoredReplaced(cases: seq<Entry>, at: nat, entry: Entry)
    requires at < |cases|
    ensures Scored(cases[at := entry]) + Sampling(cases[at].samples) == Scored(cases) + Sampling(entry.samples)
  {
    var next := cases[at := entry];
    CutOut(cases, at);
    CutOut(next, at);
    ScoredThree(cases[..at], cases[at], cases[at + 1..]);
    ScoredThree(cases[..at], entry, cases[at + 1..]);
  }

  lemma ScoredNew(cases: seq<Entry>, entry: Entry, sample: Sample)
    requires entry.samples == [sample]
    ensures Scored(cases + [entry]) == Scored(cases) + multiset(sample.ordinals)
  {
    ScoredConcat(cases, [entry]);
    ScoredOne(entry);
    SamplingSnoc([], sample);
    assert [] + [sample] == [sample];
  }

  /** Filing a sample scores its requests once more and nothing else. */
  lemma SampledScores(cases: seq<Entry>, name: string, concurrency: nat, contract: seq<Term>, sample: Sample)
    requires Sampled(cases, name, concurrency, contract, sample).Some?
    ensures Scored(Sampled(cases, name, concurrency, contract, sample).value) ==
            Scored(cases) + multiset(sample.ordinals)
  {
    var at, next := Find(cases, name), Sampled(cases, name, concurrency, contract, sample).value;
    if at == |cases| {
      ScoredNew(cases, Entry(name, concurrency, contract, [sample]), sample);
    } else {
      ScoredReplaced(cases, at, next[at]);
      SamplingSnoc(cases[at].samples, sample);
      BagCancels(Scored(next), Sampling(cases[at].samples), Scored(cases), multiset(sample.ordinals));
    }
  }

  lemma {:induction false} RunScores(originals: seq<Source>, rounds: seq<Round>)
    requires Run(originals, rounds).Some?
    ensures var st := Run(originals, rounds).value; Scored(st.cases) == TimedFlat(st.groups)
  {
    if rounds != [] {
      var front, round := rounds[..|rounds| - 1], rounds[|rounds| - 1];
      RunScores(originals, front);
      var st, next := Run(originals, front).value, Run(originals, rounds).value;
      GroupedAdds(originals, st, round);
      var group := GroupOf(originals, round, |st.rows|);
      assert (st.groups + [group])[..|st.groups|] == st.groups;
      if !round.warmup {
        SampledScores(st.cases, round.case_.name, |round.case_.indices|, Terms(originals, round.case_),
                      Sample(group.id, group.ordinals, round.repetition));
      }
    }
  }

  /** With the warmups first, what is timed is what follows them. */
  lemma {:induction false} TimedIsTheRest(groups: seq<Group>, warm: nat)
    requires warm <= |groups|
    requires forall i :: 0 <= i < |groups| ==> (groups[i].warmup <==> i < warm)
    ensures TimedFlat(groups) + multiset(Flat(groups[..warm])) == multiset(Flat(groups))
  {
    if |groups| == warm {
      assert groups[..warm] == groups;
      NoneTimed(groups);
    } else {
      var front, last := groups[..|groups| - 1], groups[|groups| - 1];
      TimedIsTheRest(front, warm);
      assert front[..warm] == groups[..warm];
      assert multiset(Flat(front) + last.ordinals) == multiset(Flat(front)) + multiset(last.ordinals);
    }
  }

  lemma {:induction false} NoneTimed(groups: seq<Group>)
    requires forall i :: 0 <= i < |groups| ==> groups[i].warmup
    ensures TimedFlat(groups) == multiset{}
  {
    if groups != [] { NoneTimed(groups[..|groups| - 1]); }
  }

  lemma {:induction false} FlatPrefix(one: seq<Group>, two: seq<Group>)
    ensures Flat(one + two) == Flat(one) + Flat(two)
    decreases |two|
  {
    if two == [] {
      assert one + two == one;
    } else {
      var front := two[..|two| - 1];
      assert (one + two)[..|one + two| - 1] == one + front;
      FlatPrefix(one, front);
    }
  }

  lemma FlatOfTwo(groups: seq<Group>)
    requires |groups| >= 2
    ensures Flat(groups[..2]) == groups[0].ordinals + groups[1].ordinals
  {
    assert groups[..2][..1] == groups[..1] && groups[..1][..0] == [];
    assert Flat(groups[..1]) == groups[0].ordinals;
  }

  /** The first groups of a partition hold its first numbers. */
  lemma PartitionPrefix(groups: seq<Group>, warm: nat, count: nat)
    requires warm <= |groups| && Flat(groups) == Count(0, count)
    ensures var first := |Flat(groups[..warm])|; first <= count && Flat(groups[..warm]) == Count(0, first)
  {
    assert groups == groups[..warm] + groups[warm..];
    FlatPrefix(groups[..warm], groups[warm..]);
    var first := Flat(groups[..warm]);
    assert first == Count(0, count)[..|first|] == Count(0, |first|);
  }

  lemma CountBag(first: nat, rest: nat, timed: multiset<nat>)
    requires timed + multiset(Count(0, first)) == multiset(Count(0, first + rest))
    ensures timed == multiset(Count(first, rest))
  {
    CountJoins(0, first, rest);
    BagRest(Count(0, first), Count(0 + first, rest), Count(0, first + rest), timed);
  }

  lemma TimedAre(groups: seq<Group>, warm: nat, first: nat, rest: nat)
    requires warm <= |groups| && Flat(groups) == Count(0, first + rest) && |Flat(groups[..warm])| == first
    requires forall i :: 0 <= i < |groups| ==> (groups[i].warmup <==> i < warm)
    ensures TimedFlat(groups) == multiset(Count(first, rest))
  {
    TimedIsTheRest(groups, warm);
    PartitionPrefix(groups, warm, first + rest);
    CountBag(first, rest, TimedFlat(groups));
  }

  lemma WarmupsFirst(originals: seq<Source>, rounds: seq<Round>)
    requires TimedApart(rounds) && Run(originals, rounds).Some?
    ensures var groups := Run(originals, rounds).value.groups;
            && |groups| == |rounds|
            && (forall i :: 0 <= i < |groups| ==> (groups[i].warmup <==> i < 2))
            && |groups[0].ordinals| == 1 && |groups[1].ordinals| == 2
  {
    RunNames(originals, rounds);
    assert rounds[0] == rounds[..2][0] == Warmups[0] && rounds[1] == rounds[..2][1] == Warmups[1];
  }

  /** Every request after the three warmups is scored exactly once, and no warmup is. */
  lemma MenuScoredOnce(originals: seq<Source>, cases: seq<Case>, samples: nat)
    requires Derived(originals, cases, samples).Some? && DistinctNames(cases)
    ensures var menu := Derived(originals, cases, samples).value;
            |menu.rows| >= 3 && Scored(menu.cases) == multiset(Count(3, |menu.rows| - 3))
  {
    var rounds, menu := Rounds(cases, samples), Derived(originals, cases, samples).value;
    RoundsApart(cases, samples);
    RunPartitions(originals, rounds);
    RunScores(originals, rounds);
    WarmupsFirst(originals, rounds);
    FlatOfTwo(menu.groups);
    PartitionPrefix(menu.groups, 2, |menu.rows|);
    TimedAre(menu.groups, 2, 3, |menu.rows| - 3);
  }

  /** How much a list of cases grows into. */
  function Requests(cases: seq<Case>): nat {
    if cases == [] then 0 else Requests(cases[..|cases| - 1]) + |cases[|cases| - 1].indices|
  }

  function RoundRequests(rounds: seq<Round>): nat {
    if rounds == [] then 0 else RoundRequests(rounds[..|rounds| - 1]) + |rounds[|rounds| - 1].case_.indices|
  }

  lemma {:induction false} RoundRequestsConcat(one: seq<Round>, two: seq<Round>)
    ensures RoundRequests(one + two) == RoundRequests(one) + RoundRequests(two)
    decreases |two|
  {
    if two == [] {
      assert one + two == one;
    } else {
      assert (one + two)[..|one + two| - 1] == one + two[..|two| - 1];
      RoundRequestsConcat(one, two[..|two| - 1]);
    }
  }

  lemma {:induction false} RepetitionRequests(cases: seq<Case>, repetition: nat)
    ensures RoundRequests(Repetition(cases, repetition)) == Requests(cases)
  {
    if cases != [] {
      var front := cases[..|cases| - 1];
      RepetitionRequests(front, repetition);
      assert Repetition(cases, repetition)[..|cases| - 1] == Repetition(front, repetition);
    }
  }

  lemma {:induction false} RunCounts(originals: seq<Source>, rounds: seq<Round>)
    requires Run(originals, rounds).Some?
    ensures |Run(originals, rounds).value.rows| == RoundRequests(rounds)
  {
    if rounds != [] {
      var front := rounds[..|rounds| - 1];
      RunCounts(originals, front);
      GroupedAdds(originals, Run(originals, front).value, rounds[|rounds| - 1]);
    }
  }

  lemma WarmupRequests()
    ensures RoundRequests(Warmups) == 3
  {
    assert Warmups[..1][..0] == [];
    assert RoundRequests(Warmups[..1]) == 1;
  }

  lemma TimesStep(times: nat, n: nat)
    requires times > 0
    ensures times * n == (times - 1) * n + n
  {
  }

  lemma RoundsNext(cases: seq<Case>, samples: nat, m: nat, n: nat)
    requires samples > 0
    requires RoundRequests(Rounds(cases, samples - 1)) == 3 + m && |Rounds(cases, samples - 1)| == 2 + n
    ensures RoundRequests(Rounds(cases, samples)) == 3 + m + Requests(cases)
    ensures |Rounds(cases, samples)| == 2 + n + |cases|
  {
    RepetitionRequests(cases, samples - 1);
    RoundRequestsConcat(Rounds(cases, samples - 1), Repetition(cases, samples - 1));
  }

  lemma {:induction false} RoundsCount(cases: seq<Case>, samples: nat)
    ensures RoundRequests(Rounds(cases, samples)) == 3 + samples * Requests(cases)
    ensures |Rounds(cases, samples)| == 2 + samples * |cases|
  {
    if samples == 0 {
      WarmupRequests();
    } else {
      RoundsCount(cases, samples - 1);
      TimesStep(samples, Requests(cases));
      TimesStep(samples, |cases|);
      RoundsNext(cases, samples, (samples - 1) * Requests(cases), (samples - 1) * |cases|);
    }
  }

  /** Three warmups, and every case's requests once per repetition. */
  lemma MenuSize(originals: seq<Source>, cases: seq<Case>, samples: nat)
    requires Derived(originals, cases, samples).Some?
    ensures var menu := Derived(originals, cases, samples).value;
            && |menu.rows| == 3 + samples * Requests(cases)
            && |menu.groups| == 2 + samples * |cases|
  {
    RunCounts(originals, Rounds(cases, samples));
    RunNames(originals, Rounds(cases, samples));
    RoundsCount(cases, samples);
  }
}
