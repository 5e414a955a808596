/** The cases of a derived menu, said without its loops: one entry a case of the list, one sample a
    repetition, and the requests of each sample in closed form. */
module MenuCases {
  import opened Results
  import opened Folding
  import opened Menu
  import opened MenuSchedule
  import opened MenuPlan

  /** The first request of the `i`-th case in one repetition. */
  function Start(cases: seq<Case>, i: nat, repetition: nat): nat
    requires i <= |cases|
  {
    3 + repetition * Requests(cases) + Requests(cases[..i])
  }

  function SampleAt(cases: seq<Case>, i: nat, repetition: nat): Sample
    requires i < |cases|
  {
    Sample(GroupId(Round(cases[i], repetition, false)), Count(Start(cases, i, repetition), |cases[i].indices|), repetition)
  }

  /** The entry of the `i`-th case, with its samples of the first `n` repetitions. */
  predicate EntryIs(e: Entry, originals: seq<Source>, cases: seq<Case>, i: nat, n: nat) {
    && i < |cases| && Indexed(originals, cases[i].indices)
    && e.name == cases[i].name && e.concurrency == |cases[i].indices| && e.contract == Terms(originals, cases[i])
    && |e.samples| == n && forall k :: 0 <= k < n ==> e.samples[k] == SampleAt(cases, i, k)
  }

  /** How many samples the `i`-th case has when `a` cases of a repetition are done. */
  function Done(repetition: nat, a: nat, i: nat): nat { if i < a then repetition + 1 else repetition }

  /** The entries when `a` cases of a repetition are done. */
  predicate Listed(entries: seq<Entry>, originals: seq<Source>, cases: seq<Case>, repetition: nat, a: nat) {
    && a <= |cases| && |entries| == (if repetition == 0 then a else |cases|)
    && forall i :: 0 <= i < |entries| ==> EntryIs(entries[i], originals, cases, i, Done(repetition, a, i))
  }

  lemma FindsCase(entries: seq<Entry>, originals: seq<Source>, cases: seq<Case>, repetition: nat, a: nat)
    requires DistinctNames(cases) && Listed(entries, originals, cases, repetition, a) && a < |cases|
    ensures Find(entries, cases[a].name) == if repetition == 0 then |entries| else a
  {
    forall i | 0 <= i < |entries| ensures entries[i].name == cases[i].name {
      assert EntryIs(entries[i], originals, cases, i, Done(repetition, a, i));
    }
  }

  /** The first sample of a case lists it. */
  lemma NewListed(entries: seq<Entry>, originals: seq<Source>, cases: seq<Case>, entry: Entry)
    requires Listed(entries, originals, cases, 0, |entries|) && |entries| < |cases|
    requires EntryIs(entry, originals, cases, |entries|, 1)
    ensures Listed(entries + [entry], originals, cases, 0, |entries| + 1)
  {
    forall i | 0 <= i < |entries|
      ensures EntryIs(entries[i], originals, cases, i, Done(0, |entries| + 1, i))
    {
      assert EntryIs(entries[i], originals, cases, i, Done(0, |entries|, i));
    }
  }

  /** A later one is added to it. */
  lemma LongerListed(entries: seq<Entry>, originals: seq<Source>, cases: seq<Case>, repetition: nat, a: nat, entry: Entry)
    requires Listed(entries, originals, cases, repetition, a) && repetition > 0 && a < |cases|
    requires EntryIs(entry, originals, cases, a, repetition + 1)
    ensures Listed(entries[a := entry], originals, cases, repetition, a + 1)
  {
    forall i | 0 <= i < |entries| && i != a
      ensures EntryIs(entries[i], originals, cases, i, Done(repetition, a + 1, i))
    {
      assert EntryIs(entries[i], originals, cases, i, Done(repetition, a, i));
    }
  }

  lemma EntryLonger(e: Entry, originals: seq<Source>, cases: seq<Case>, i: nat, n: nat)
    requires EntryIs(e, originals, cases, i, n)
    ensures EntryIs(e.(samples := e.samples + [SampleAt(cases, i, n)]), originals, cases, i, n + 1)
  {
  }

  lemma EntryNew(originals: seq<Source>, cases: seq<Case>, i: nat)
    requires i < |cases| && Indexed(originals, cases[i].indices)
    ensures EntryIs(Entry(cases[i].name, |cases[i].indices|, Terms(originals, cases[i]), [SampleAt(cases, i, 0)]),
                    originals, cases, i, 1)
  {
  }

  /** Filing the next sample of a repetition. */
  lemma OneMoreListed(entries: seq<Entry>, originals: seq<Source>, cases: seq<Case>, repetition: nat, a: nat,
                      next: seq<Entry>)
    requires DistinctNames(cases) && Listed(entries, originals, cases, repetition, a) && a < |cases|
    requires Indexed(originals, cases[a].indices)
    requires Sampled(entries, cases[a].name, |cases[a].indices|, Terms(originals, cases[a]),
                     SampleAt(cases, a, repetition)) == Some(next)
    ensures Listed(next, originals, cases, repetition, a + 1)
  {
    FindsCase(entries, originals, cases, repetition, a);
    if repetition == 0 {
      EntryNew(originals, cases, a);
      NewListed(entries, originals, cases, next[a]);
    } else {
      assert EntryIs(entries[a], originals, cases, a, Done(repetition, a, a));
      EntryLonger(entries[a], originals, cases, a, repetition);
      LongerListed(entries, originals, cases, repetition, a, next[a]);
    }
  }

  lemma {:induction false} WarmupsListNothing(originals: seq<Source>)
    requires Run(originals, Warmups).Some?
    ensures Run(originals, Warmups).value.cases == []
  {
    WarmupsRun(originals);
    GroupedAdds(originals, Blank, Warmups[0]);
    GroupedAdds(originals, Grouped(originals, Blank, Warmups[0]).value, Warmups[1]);
  }

  lemma BeforeRows(originals: seq<Source>, cases: seq<Case>, repetition: nat, a: nat)
    requires a <= |cases| && Run(originals, Before(cases, repetition, a)).Some?
    ensures |Run(originals, Before(cases, repetition, a)).value.rows| == Start(cases, a, repetition)
  {
    RunCounts(originals, Before(cases, repetition, a));
    BeforeRequests(cases, repetition, a);
  }

  lemma BeforeRequests(cases: seq<Case>, repetition: nat, a: nat)
    requires a <= |cases|
    ensures RoundRequests(Before(cases, repetition, a)) == Start(cases, a, repetition)
  {
    RoundRequestsConcat(Rounds(cases, repetition), Repetition(cases, repetition)[..a]);
    RoundsCount(cases, repetition);
    RepetitionRequests(cases[..a], repetition);
    assert Repetition(cases, repetition)[..a] == Repetition(cases[..a], repetition);
  }

  lemma NextLists(originals: seq<Source>, cases: seq<Case>, repetition: nat, a: nat, st: State, next: State)
    requires DistinctNames(cases) && a < |cases| && Listed(st.cases, originals, cases, repetition, a)
    requires |st.rows| == Start(cases, a, repetition)
    requires Grouped(originals, st, Round(cases[a], repetition, false)) == Some(next)
    ensures Listed(next.cases, originals, cases, repetition, a + 1)
  {
    GroupedAdds(originals, st, Round(cases[a], repetition, false));
    OneMoreListed(st.cases, originals, cases, repetition, a, next.cases);
  }

  lemma BeforeStep(originals: seq<Source>, cases: seq<Case>, repetition: nat, a: nat) returns (st: State, next: State)
    requires a < |cases| && Run(originals, Before(cases, repetition, a + 1)).Some?
    ensures Run(originals, Before(cases, repetition, a)) == Some(st)
    ensures Run(originals, Before(cases, repetition, a + 1)) == Some(next)
    ensures Grouped(originals, st, Round(cases[a], repetition, false)) == Some(next)
  {
    BeforeNext(cases, repetition, a);
    FoldSnoc(Step(originals), Blank, Before(cases, repetition, a), Round(cases[a], repetition, false));
    st := Run(originals, Before(cases, repetition, a)).value;
    next := Run(originals, Before(cases, repetition, a + 1)).value;
  }

  lemma BeforeRepetition(cases: seq<Case>, repetition: nat)
    ensures Before(cases, repetition, 0) == Rounds(cases, repetition)
    ensures repetition == 0 ==> Before(cases, repetition, 0) == Warmups
    ensures repetition > 0 ==> Before(cases, repetition, 0) == Before(cases, repetition - 1, |cases|)
  {
  }

  lemma {:induction false} BeforeLists(originals: seq<Source>, cases: seq<Case>, repetition: nat, a: nat)
    requires DistinctNames(cases) && a <= |cases| && Run(originals, Before(cases, repetition, a)).Some?
    ensures Listed(Run(originals, Before(cases, repetition, a)).value.cases, originals, cases, repetition, a)
    decreases repetition, a
  {
    hide Listed, Grouped, DistinctNames;
    if a > 0 {
      var st, next := BeforeStep(originals, cases, repetition, a - 1);
      BeforeLists(originals, cases, repetition, a - 1);
      BeforeRows(originals, cases, repetition, a - 1);
      NextLists(originals, cases, repetition, a - 1, st, next);
    } else {
      BeforeRepetition(cases, repetition);
      if repetition == 0 {
        WarmupsListNothing(originals);
        NothingListed(originals, cases);
      } else {
        BeforeLists(originals, cases, repetition - 1, |cases|);
        ListedAgain(Run(originals, Before(cases, repetition, 0)).value.cases, originals, cases, repetition - 1);
      }
    }
  }

  lemma NothingListed(originals: seq<Source>, cases: seq<Case>)
    ensures Listed([], originals, cases, 0, 0)
  {
  }

  /** The end of one repetition is the beginning of the next. */
  lemma ListedAgain(entries: seq<Entry>, originals: seq<Source>, cases: seq<Case>, repetition: nat)
    requires Listed(entries, originals, cases, repetition, |cases|)
    ensures Listed(entries, originals, cases, repetition + 1, 0)
  {
    forall i | 0 <= i < |entries|
      ensures EntryIs(entries[i], originals, cases, i, Done(repetition + 1, 0, i))
    {
      assert EntryIs(entries[i], originals, cases, i, Done(repetition, |cases|, i));
    }
  }

  /** The entries of a derived menu are its cases in their order, each with one sample a repetition. */
  predicate ListedAll(entries: seq<Entry>, originals: seq<Source>, cases: seq<Case>, samples: nat) {
    && |entries| == (if samples == 0 then 0 else |cases|)
    && forall i :: 0 <= i < |entries| ==> EntryIs(entries[i], originals, cases, i, samples)
  }

  /** The case map of a derived menu: nothing is listed but the cases of the list, each under its own
      contract, and its sample of a repetition is the stretch of requests that starts after the warmups,
      the earlier repetitions and the earlier cases. */
  lemma MenuLists(originals: seq<Source>, cases: seq<Case>, samples: nat)
    requires Derived(originals, cases, samples).Some? && DistinctNames(cases)
    ensures ListedAll(Derived(originals, cases, samples).value.cases, originals, cases, samples)
  {
    assert Before(cases, samples, 0) == Rounds(cases, samples);
    BeforeLists(originals, cases, samples, 0);
    var entries := Derived(originals, cases, samples).value.cases;
    forall i | 0 <= i < |entries| ensures EntryIs(entries[i], originals, cases, i, samples) {
      assert EntryIs(entries[i], originals, cases, i, Done(samples, 0, i));
    }
  }

  // ----- which requests are cold

  /** The rows from `base` on are as cold or warm as their round. */
  predicate RowsLike(rows: seq<Row>, base: nat, n: nat, warm: bool) {
    base + n <= |rows| && forall j :: base <= j < base + n ==> rows[j].policy.warm == warm
  }

  lemma {:induction false} PlacedLike(originals: seq<Source>, st: State, round: Round, n: nat, next: State)
    requires PlacedTo(originals, st, round, n, next)
    ensures st.rows <= next.rows && |next.rows| == |st.rows| + n
    ensures RowsLike(next.rows, |st.rows|, n, round.case_.warm)
    decreases n
  {
    if n != 0 {
      PlacedNext(originals, st, round, n - 1);
      var mid := PlacedUpTo(originals, st, round, n - 1).value;
      PlacedLike(originals, st, round, n - 1, mid);
      PlacedRow(originals, mid, round, n - 1, next);
    }
  }

  lemma PlacedRow(originals: seq<Source>, st: State, round: Round, position: nat, next: State)
    requires position < |round.case_.indices| && Placed(originals, st, round, position) == Some(next)
    ensures |next.rows| == |st.rows| + 1 && st.rows <= next.rows
    ensures next.rows[|st.rows|].policy.warm == round.case_.warm
  {
  }

  lemma GroupedLike(originals: seq<Source>, st: State, round: Round, next: State)
    requires Grouped(originals, st, round) == Some(next)
    ensures st.rows <= next.rows && RowsLike(next.rows, |st.rows|, |round.case_.indices|, round.case_.warm)
  {
    PlacedLike(originals, st, round, |round.case_.indices|,
               PlacedUpTo(originals, st, round, |round.case_.indices|).value);
  }

  /** The rows of the `k`-th round follow those of the rounds before it, and are cold or warm with it. */
  lemma {:induction false} RunLike(originals: seq<Source>, rounds: seq<Round>, k: nat)
    requires Run(originals, rounds).Some? && k < |rounds|
    ensures RowsLike(Run(originals, rounds).value.rows, RoundRequests(rounds[..k]), |rounds[k].case_.indices|,
                     rounds[k].case_.warm)
  {
    var front, round := rounds[..|rounds| - 1], rounds[|rounds| - 1];
    var st, next := Run(originals, front).value, Run(originals, rounds).value;
    GroupedLike(originals, st, round, next);
    if k < |front| {
      RunLike(originals, front, k);
      assert front[..k] == rounds[..k];
    } else {
      RunCounts(originals, front);
      assert rounds[..k] == front;
    }
  }

  /** The rows of the `i`-th case in the first repetition. */
  lemma CaseRowsLike(originals: seq<Source>, cases: seq<Case>, samples: nat, i: nat)
    requires Derived(originals, cases, samples).Some? && samples > 0 && i < |cases|
    ensures RowsLike(Derived(originals, cases, samples).value.rows, Start(cases, i, 0), |cases[i].indices|, cases[i].warm)
  {
    FirstRoundAt(cases, samples, i);
    FirstRounds(cases, samples, i);
    BeforeRequests(cases, 0, i);
    RunLike(originals, Rounds(cases, samples), 2 + i);
  }

  lemma WarmupRowsCold(originals: seq<Source>, cases: seq<Case>, samples: nat)
    requires Derived(originals, cases, samples).Some? && samples > 0
    ensures RowsLike(Derived(originals, cases, samples).value.rows, 0, 3, false)
  {
    var rounds := Rounds(cases, samples);
    FirstRounds(cases, samples, 0);
    assert rounds[..2] == Warmups && rounds[0] == rounds[..2][0] && rounds[1] == rounds[..2][1];
    RunLike(originals, rounds, 0);
    RunLike(originals, rounds, 1);
    assert rounds[..1] == [Warmups[0]] && rounds[..1][..0] == [];
  }
}
