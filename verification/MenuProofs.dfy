/** When a menu can be derived, and what its rows promise. */
module MenuProofs {
  import opened Results
  import opened Folding
  import opened Menu

  // ----- one group

  predicate CanPlaceAt(originals: seq<Source>, seeds: map<Key, Seed>, round: Round, position: nat)
    requires position < |round.case_.indices|
  {
    var index, key := round.case_.indices[position], KeyOf(round, position);
    && index < |originals| && Usable(originals[index])
    && if round.case_.warm then key in seeds && seeds[key].tokens == originals[index].tokens else key !in seeds
  }

  /** The seeds after a cold group's first `n` requests, the first of them numbered `base`. */
  function Sown(originals: seq<Source>, seeds: map<Key, Seed>, round: Round, base: nat, n: nat): map<Key, Seed>
    requires n <= |round.case_.indices| && Indexed(originals, round.case_.indices[..n])
  {
    if n == 0 || round.case_.warm then seeds
    else
      assert round.case_.indices[..n][n - 1] == round.case_.indices[n - 1];
      assert round.case_.indices[..n][..n - 1] == round.case_.indices[..n - 1];
      Sown(originals, seeds, round, base, n - 1)
        [KeyOf(round, n - 1) := Seed(base + n - 1, originals[round.case_.indices[n - 1]].tokens)]
  }

  lemma {:induction false} SownOld(originals: seq<Source>, seeds: map<Key, Seed>, round: Round, base: nat, n: nat,
                                   key: Key)
    requires n <= |round.case_.indices| && Indexed(originals, round.case_.indices[..n]) && key in seeds
    ensures key in Sown(originals, seeds, round, base, n)
    ensures round.case_.warm || key.position >= n || key != KeyOf(round, key.position) ==>
      Sown(originals, seeds, round, base, n)[key] == seeds[key]
  {
    if n != 0 && !round.case_.warm {
      assert round.case_.indices[..n][..n - 1] == round.case_.indices[..n - 1];
      SownOld(originals, seeds, round, base, n - 1, key);
    }
  }

  lemma {:induction false} SownFrom(originals: seq<Source>, seeds: map<Key, Seed>, round: Round, base: nat, n: nat,
                                    key: Key)
    requires n <= |round.case_.indices| && Indexed(originals, round.case_.indices[..n])
    requires key in Sown(originals, seeds, round, base, n)
    ensures key in seeds || (!round.case_.warm && key.position < n && key == KeyOf(round, key.position))
  {
    if n != 0 && !round.case_.warm && key != KeyOf(round, n - 1) {
      assert round.case_.indices[..n][..n - 1] == round.case_.indices[..n - 1];
      SownFrom(originals, seeds, round, base, n - 1, key);
    }
  }

  lemma {:induction false} SownAt(originals: seq<Source>, seeds: map<Key, Seed>, round: Round, base: nat, n: nat, p: nat)
    requires n <= |round.case_.indices| && Indexed(originals, round.case_.indices[..n])
    requires p < n && !round.case_.warm
    ensures KeyOf(round, p) in Sown(originals, seeds, round, base, n)
    ensures Sown(originals, seeds, round, base, n)[KeyOf(round, p)]
         == Seed(base + p, originals[round.case_.indices[..n][p]].tokens)
  {
    if p < n - 1 {
      assert round.case_.indices[..n][..n - 1] == round.case_.indices[..n - 1];
      SownAt(originals, seeds, round, base, n - 1, p);
    }
  }

  lemma SownKeys(originals: seq<Source>, seeds: map<Key, Seed>, round: Round, base: nat, n: nat)
    requires n <= |round.case_.indices| && Indexed(originals, round.case_.indices[..n])
    ensures forall key :: key in seeds ==> key in Sown(originals, seeds, round, base, n)
    ensures forall key :: key in Sown(originals, seeds, round, base, n) ==>
      key in seeds || (!round.case_.warm && key.position < n && key == KeyOf(round, key.position))
    ensures forall p :: 0 <= p < n && !round.case_.warm ==>
      KeyOf(round, p) in Sown(originals, seeds, round, base, n)
      && Sown(originals, seeds, round, base, n)[KeyOf(round, p)]
         == Seed(base + p, originals[round.case_.indices[..n][p]].tokens)
    ensures forall key :: key in seeds && (round.case_.warm || key.position >= n || key != KeyOf(round, key.position)) ==>
      Sown(originals, seeds, round, base, n)[key] == seeds[key]
  {
    forall key | key in seeds { SownOld(originals, seeds, round, base, n, key); }
    forall key | key in Sown(originals, seeds, round, base, n) { SownFrom(originals, seeds, round, base, n, key); }
    forall p | 0 <= p < n && !round.case_.warm { SownAt(originals, seeds, round, base, n, p); }
  }

  predicate CanPlace(originals: seq<Source>, seeds: map<Key, Seed>, round: Round, n: nat)
    requires n <= |round.case_.indices|
  {
    forall p :: 0 <= p < n ==> CanPlaceAt(originals, seeds, round, p)
  }

  lemma CanPlaceIndexed(originals: seq<Source>, seeds: map<Key, Seed>, round: Round, n: nat)
    requires n <= |round.case_.indices| && CanPlace(originals, seeds, round, n)
    ensures Indexed(originals, round.case_.indices[..n])
  {
    forall p | 0 <= p < n
      ensures round.case_.indices[..n][p] < |originals|
    {
      assert CanPlaceAt(originals, seeds, round, p);
    }
  }

  /** Placing the requests before it does not decide whether a request can be placed. */
  lemma SownApart(originals: seq<Source>, seeds: map<Key, Seed>, round: Round, base: nat, n: nat)
    requires n < |round.case_.indices| && Indexed(originals, round.case_.indices[..n])
    ensures CanPlaceAt(originals, Sown(originals, seeds, round, base, n), round, n) <==>
            CanPlaceAt(originals, seeds, round, n)
  {
    SownKeys(originals, seeds, round, base, n);
    assert KeyOf(round, n).position == n;
  }

  /** What placing the first `n` requests did. */
  predicate PlacedShape(originals: seq<Source>, st: State, round: Round, n: nat, next: State)
    requires n <= |round.case_.indices|
  {
    && Indexed(originals, round.case_.indices[..n])
    && next.groups == st.groups && next.cases == st.cases
    && next.seeds == Sown(originals, st.seeds, round, |st.rows|, n)
    && |next.rows| == |st.rows| + n
  }

  lemma PlacedIf(originals: seq<Source>, mid: State, round: Round, n: nat)
    requires n < |round.case_.indices|
    ensures Placed(originals, mid, round, n).Some? <==> CanPlaceAt(originals, mid.seeds, round, n)
    ensures Placed(originals, mid, round, n).Some? ==>
      var next := Placed(originals, mid, round, n).value;
      && next.groups == mid.groups && next.cases == mid.cases && |next.rows| == |mid.rows| + 1
      && next.seeds == if round.case_.warm then mid.seeds
                       else mid.seeds[KeyOf(round, n) := Seed(|mid.rows|, originals[round.case_.indices[n]].tokens)]
  {
  }

  lemma SownNext(originals: seq<Source>, seeds: map<Key, Seed>, round: Round, base: nat, n: nat)
    requires n < |round.case_.indices| && Indexed(originals, round.case_.indices[..n + 1])
    ensures Indexed(originals, round.case_.indices[..n]) && round.case_.indices[n] < |originals|
    ensures Sown(originals, seeds, round, base, n + 1) ==
            if round.case_.warm then Sown(originals, seeds, round, base, n)
            else Sown(originals, seeds, round, base, n)
                   [KeyOf(round, n) := Seed(base + n, originals[round.case_.indices[n]].tokens)]
  {
    assert round.case_.indices[..n + 1][n] == round.case_.indices[n];
    assert round.case_.indices[..n + 1][..n] == round.case_.indices[..n];
    assert forall p :: 0 <= p < n ==> round.case_.indices[..n][p] == round.case_.indices[..n + 1][p];
  }

  lemma PlacedStep(originals: seq<Source>, st: State, round: Round, n: nat, mid: State)
    requires n < |round.case_.indices| && PlacedShape(originals, st, round, n, mid)
    requires CanPlace(originals, st.seeds, round, n)
    ensures Placed(originals, mid, round, n).Some? <==> CanPlaceAt(originals, st.seeds, round, n)
    ensures Placed(originals, mid, round, n).Some? ==>
      PlacedShape(originals, st, round, n + 1, Placed(originals, mid, round, n).value)
  {
    SownApart(originals, st.seeds, round, |st.rows|, n);
    PlacedIf(originals, mid, round, n);
    if CanPlaceAt(originals, st.seeds, round, n) {
      CanPlaceNext(originals, st.seeds, round, n);
      CanPlaceIndexed(originals, st.seeds, round, n + 1);
      SownNext(originals, st.seeds, round, |st.rows|, n);
    }
  }

  lemma CanPlaceNext(originals: seq<Source>, seeds: map<Key, Seed>, round: Round, n: nat)
    requires n < |round.case_.indices|
    ensures CanPlace(originals, seeds, round, n + 1) <==>
            CanPlace(originals, seeds, round, n) && CanPlaceAt(originals, seeds, round, n)
  {
    forall p | 0 <= p < n + 1 && CanPlace(originals, seeds, round, n) && CanPlaceAt(originals, seeds, round, n)
      ensures CanPlaceAt(originals, seeds, round, p)
    {
    }
  }

  /** A group's requests are placed exactly when each could be placed on the seeds there were
      before it; the rows are only added to, and nothing else but the seeds changes. */
  lemma {:induction false} PlacedMeans(originals: seq<Source>, st: State, round: Round, n: nat)
    requires n <= |round.case_.indices|
    ensures PlacedUpTo(originals, st, round, n).Some? <==> CanPlace(originals, st.seeds, round, n)
    ensures PlacedUpTo(originals, st, round, n).Some? ==>
      PlacedShape(originals, st, round, n, PlacedUpTo(originals, st, round, n).value)
  {
    if n != 0 {
      PlacedMeans(originals, st, round, n - 1);
      PlacedNext(originals, st, round, n - 1);
      CanPlaceNext(originals, st.seeds, round, n - 1);
      var mid := PlacedUpTo(originals, st, round, n - 1);
      if mid.Some? {
        PlacedStep(originals, st, round, n - 1, mid.value);
      }
    }
  }

  // ----- the condition on the whole plan

  predicate SameNamespace(one: Round, two: Round) {
    Family(one.case_.name) == Family(two.case_.name) && one.repetition == two.repetition
  }

  predicate Ready(originals: seq<Source>, indices: seq<nat>) {
    && Indexed(originals, indices)
    && Fits(originals, indices)
    && forall p :: 0 <= p < |indices| ==> Usable(originals[indices[p]])
  }

  /** An earlier cold round seeds this position with the same tokens. */
  predicate Seeds(originals: seq<Source>, earlier: Round, round: Round, p: nat)
    requires p < |round.case_.indices| && Indexed(originals, round.case_.indices)
  {
    && !earlier.case_.warm && SameNamespace(earlier, round)
    && p < |earlier.case_.indices| && earlier.case_.indices[p] < |originals|
    && originals[earlier.case_.indices[p]].tokens == originals[round.case_.indices[p]].tokens
  }

  predicate Seeded(originals: seq<Source>, earlier: seq<Round>, round: Round, p: nat)
    requires p < |round.case_.indices| && Indexed(originals, round.case_.indices)
  {
    exists i :: 0 <= i < |earlier| && Seeds(originals, earlier[i], round, p)
  }

  /** Every position of a warm round is seeded, and no cold round shares a cold round's namespace. */
  predicate SeedsOk(originals: seq<Source>, earlier: seq<Round>, round: Round)
    requires Indexed(originals, round.case_.indices)
  {
    if round.case_.warm then forall p :: 0 <= p < |round.case_.indices| ==> Seeded(originals, earlier, round, p)
    else forall i :: 0 <= i < |earlier| ==> earlier[i].case_.warm || !SameNamespace(earlier[i], round)
  }

  predicate ContractOk(originals: seq<Source>, earlier: seq<Round>, round: Round)
    requires Indexed(originals, round.case_.indices)
  {
    forall i :: 0 <= i < |earlier| && !earlier[i].warmup && earlier[i].case_.name == round.case_.name ==>
      Indexed(originals, earlier[i].case_.indices)
      && Terms(originals, earlier[i].case_) == Terms(originals, round.case_)
  }

  /** What one round needs of the rounds before it. */
  predicate RoundOk(originals: seq<Source>, earlier: seq<Round>, round: Round) {
    && Ready(originals, round.case_.indices)
    && SeedsOk(originals, earlier, round)
    && (!round.warmup ==> ContractOk(originals, earlier, round))
  }

  predicate AllOk(originals: seq<Source>, rounds: seq<Round>) {
    if rounds == [] then true
    else
      AllOk(originals, rounds[..|rounds| - 1])
      && RoundOk(originals, rounds[..|rounds| - 1], rounds[|rounds| - 1])
  }

  // ----- what the seeds and cases record

  predicate AllReady(originals: seq<Source>, rounds: seq<Round>) {
    forall i :: 0 <= i < |rounds| ==> Ready(originals, rounds[i].case_.indices)
  }

  predicate Sows(round: Round, key: Key) {
    !round.case_.warm && key.position < |round.case_.indices| && key == KeyOf(round, key.position)
  }

  /** The namespace this round sowed still holds its tokens. */
  predicate Kept(originals: seq<Source>, round: Round, seeds: map<Key, Seed>, key: Key) {
    && key.position < |round.case_.indices| && round.case_.indices[key.position] < |originals|
    && key in seeds && seeds[key].tokens == originals[round.case_.indices[key.position]].tokens
  }

  ghost predicate SeedsRecord(originals: seq<Source>, rounds: seq<Round>, seeds: map<Key, Seed>)
    requires AllReady(originals, rounds)
  {
    && (forall key :: key in seeds ==> exists i :: 0 <= i < |rounds| && Sows(rounds[i], key))
    && (forall i, key {:trigger Sows(rounds[i], key)} :: 0 <= i < |rounds| && Sows(rounds[i], key) ==>
          Kept(originals, rounds[i], seeds, key))
  }

  predicate Timed(rounds: seq<Round>, name: string) {
    exists i :: 0 <= i < |rounds| && !rounds[i].warmup && rounds[i].case_.name == name
  }

  lemma TimedGrows(rounds: seq<Round>, round: Round, name: string)
    ensures Timed(rounds, name) || (!round.warmup && round.case_.name == name) ==> Timed(rounds + [round], name)
  {
    var all := rounds + [round];
    if Timed(rounds, name) {
      var i :| 0 <= i < |rounds| && !rounds[i].warmup && rounds[i].case_.name == name;
      assert all[i] == rounds[i];
    } else {
      assert all[|rounds|] == round;
    }
  }

  predicate CasesRecord(originals: seq<Source>, rounds: seq<Round>, cases: seq<Entry>)
    requires AllReady(originals, rounds)
  {
    && (forall e :: 0 <= e < |cases| ==> Timed(rounds, cases[e].name))
    && (forall i :: 0 <= i < |rounds| && !rounds[i].warmup ==>
          var at := Find(cases, rounds[i].case_.name);
          at < |cases| && cases[at].contract == Terms(originals, rounds[i].case_))
  }

  ghost predicate Recorded(originals: seq<Source>, rounds: seq<Round>, st: State) {
    && AllReady(originals, rounds)
    && SeedsRecord(originals, rounds, st.seeds)
    && CasesRecord(originals, rounds, st.cases)
  }

  predicate AllUsable(originals: seq<Source>, indices: seq<nat>)
    requires Indexed(originals, indices)
  {
    forall p :: 0 <= p < |indices| ==> Usable(originals[indices[p]])
  }

  lemma WarmPlaces(originals: seq<Source>, earlier: seq<Round>, seeds: map<Key, Seed>, round: Round, p: nat)
    requires AllReady(originals, earlier) && SeedsRecord(originals, earlier, seeds)
    requires Indexed(originals, round.case_.indices) && p < |round.case_.indices|
    requires Usable(originals[round.case_.indices[p]]) && round.case_.warm
    ensures CanPlaceAt(originals, seeds, round, p) <==> Seeded(originals, earlier, round, p)
  {
    var key := KeyOf(round, p);
    forall i | 0 <= i < |earlier|
      ensures Seeds(originals, earlier[i], round, p) <==>
              Sows(earlier[i], key) && CanPlaceAt(originals, seeds, round, p)
    {
      if Sows(earlier[i], key) {
        assert Kept(originals, earlier[i], seeds, key);
      }
    }
    if CanPlaceAt(originals, seeds, round, p) {
      var i :| 0 <= i < |earlier| && Sows(earlier[i], key);
      assert Seeds(originals, earlier[i], round, p);
    }
  }

  lemma ColdPlaces(originals: seq<Source>, earlier: seq<Round>, seeds: map<Key, Seed>, round: Round)
    requires AllReady(originals, earlier) && SeedsRecord(originals, earlier, seeds)
    requires Indexed(originals, round.case_.indices) && round.case_.indices != []
    requires AllUsable(originals, round.case_.indices) && !round.case_.warm
    ensures CanPlace(originals, seeds, round, |round.case_.indices|) <==> SeedsOk(originals, earlier, round)
  {
    forall i | 0 <= i < |earlier| && !earlier[i].case_.warm && SameNamespace(earlier[i], round)
      ensures Sows(earlier[i], KeyOf(round, 0)) && KeyOf(round, 0) in seeds
    {
      assert Ready(originals, earlier[i].case_.indices);
      assert Sows(earlier[i], KeyOf(round, 0));
    }
    assert CanPlace(originals, seeds, round, |round.case_.indices|) ==> CanPlaceAt(originals, seeds, round, 0);
    forall p | 0 <= p < |round.case_.indices| && SeedsOk(originals, earlier, round)
      ensures CanPlaceAt(originals, seeds, round, p)
    {
      SowerShares(originals, earlier, seeds, round, p);
    }
  }

  lemma SowerShares(originals: seq<Source>, earlier: seq<Round>, seeds: map<Key, Seed>, round: Round, p: nat)
    requires AllReady(originals, earlier) && SeedsRecord(originals, earlier, seeds)
    ensures KeyOf(round, p) in seeds ==>
      exists i :: 0 <= i < |earlier| && !earlier[i].case_.warm && SameNamespace(earlier[i], round)
  {
    if KeyOf(round, p) in seeds {
      var i :| 0 <= i < |earlier| && Sows(earlier[i], KeyOf(round, p));
    }
  }

  lemma CanPlaceMeans(originals: seq<Source>, earlier: seq<Round>, seeds: map<Key, Seed>, round: Round)
    requires AllReady(originals, earlier) && SeedsRecord(originals, earlier, seeds)
    requires Indexed(originals, round.case_.indices) && round.case_.indices != []
    requires AllUsable(originals, round.case_.indices)
    ensures CanPlace(originals, seeds, round, |round.case_.indices|) <==> SeedsOk(originals, earlier, round)
  {
    if round.case_.warm {
      forall p | 0 <= p < |round.case_.indices|
        ensures CanPlaceAt(originals, seeds, round, p) <==> Seeded(originals, earlier, round, p)
      {
        WarmPlaces(originals, earlier, seeds, round, p);
      }
    } else {
      ColdPlaces(originals, earlier, seeds, round);
    }
  }

  function Filed(originals: seq<Source>, cases: seq<Entry>, round: Round, sample: Sample): Option<seq<Entry>>
    requires Indexed(originals, round.case_.indices)
  {
    Sampled(cases, round.case_.name, |round.case_.indices|, Terms(originals, round.case_), sample)
  }

  lemma CaseMeans(originals: seq<Source>, earlier: seq<Round>, cases: seq<Entry>, round: Round, sample: Sample)
    requires AllReady(originals, earlier) && CasesRecord(originals, earlier, cases)
    requires Indexed(originals, round.case_.indices)
    ensures Filed(originals, cases, round, sample).Some? <==> ContractOk(originals, earlier, round)
  {
    var at := Find(cases, round.case_.name);
    if at < |cases| {
      var i :| 0 <= i < |earlier| && !earlier[i].warmup && earlier[i].case_.name == cases[at].name;
      assert Find(cases, earlier[i].case_.name) == at;
    }
    forall i | 0 <= i < |earlier| && !earlier[i].warmup && earlier[i].case_.name == round.case_.name
      ensures at < |cases| && cases[at].contract == Terms(originals, earlier[i].case_)
    {
    }
  }

  /** The sample a round files. */
  function SampleOf(round: Round, base: nat): Sample {
    Sample(GroupId(round), Count(base, |round.case_.indices|), round.repetition)
  }

  lemma GroupedMeans(originals: seq<Source>, st: State, round: Round)
    ensures Grouped(originals, st, round).Some? <==>
            && CanPlace(originals, st.seeds, round, |round.case_.indices|)
            && Indexed(originals, round.case_.indices) && Fits(originals, round.case_.indices)
            && (!round.warmup ==> Filed(originals, st.cases, round, SampleOf(round, |st.rows|)).Some?)
    ensures Grouped(originals, st, round).Some? ==>
      var next := Grouped(originals, st, round).value;
      && Indexed(originals, round.case_.indices[..|round.case_.indices|])
      && next.seeds == Sown(originals, st.seeds, round, |st.rows|, |round.case_.indices|)
      && next.cases == (if round.warmup then st.cases
                        else Filed(originals, st.cases, round, SampleOf(round, |st.rows|)).value)
  {
    PlacedMeans(originals, st, round, |round.case_.indices|);
  }

  /** A round is accepted exactly when its condition on the earlier rounds holds. */
  lemma RoundMeans(originals: seq<Source>, earlier: seq<Round>, st: State, round: Round)
    requires Recorded(originals, earlier, st)
    ensures Grouped(originals, st, round).Some? <==> RoundOk(originals, earlier, round)
  {
    GroupedMeans(originals, st, round);
    var indices := round.case_.indices;
    if CanPlace(originals, st.seeds, round, |indices|) {
      CanPlaceIndexed(originals, st.seeds, round, |indices|);
      assert indices[..|indices|] == indices;
      forall p | 0 <= p < |indices|
        ensures Usable(originals[indices[p]])
      {
        assert CanPlaceAt(originals, st.seeds, round, p);
      }
    }
    if Indexed(originals, indices) && indices != [] && AllUsable(originals, indices) {
      CanPlaceMeans(originals, earlier, st.seeds, round);
      CaseMeans(originals, earlier, st.cases, round, SampleOf(round, |st.rows|));
    }
  }

  lemma SeedsGrow(originals: seq<Source>, earlier: seq<Round>, st: State, round: Round, seeds: map<Key, Seed>)
    requires AllReady(originals, earlier) && SeedsRecord(originals, earlier, st.seeds)
    requires Ready(originals, round.case_.indices)
    requires CanPlace(originals, st.seeds, round, |round.case_.indices|)
    requires Indexed(originals, round.case_.indices[..|round.case_.indices|])
    requires seeds == Sown(originals, st.seeds, round, |st.rows|, |round.case_.indices|)
    ensures AllReady(originals, earlier + [round]) && SeedsRecord(originals, earlier + [round], seeds)
  {
    var all := earlier + [round];
    forall key | key in seeds
      ensures exists i :: 0 <= i < |all| && Sows(all[i], key)
    {
      SownKeys(originals, st.seeds, round, |st.rows|, |round.case_.indices|);
      SowerListed(earlier, round, key);
    }
    forall i, key | 0 <= i < |all| && Sows(all[i], key)
      ensures Kept(originals, all[i], seeds, key)
    {
      if i < |earlier| {
        OldSeedKept(originals, earlier, st, round, i, key);
      } else {
        NewSeedKept(originals, st, round, key);
      }
    }
  }

  lemma SowerListed(earlier: seq<Round>, round: Round, key: Key)
    requires Sows(round, key) || exists i :: 0 <= i < |earlier| && Sows(earlier[i], key)
    ensures exists i :: 0 <= i < |earlier + [round]| && Sows((earlier + [round])[i], key)
  {
    var all := earlier + [round];
    if Sows(round, key) {
      assert Sows(all[|earlier|], key);
    } else {
      var i :| 0 <= i < |earlier| && Sows(earlier[i], key);
      assert Sows(all[i], key);
    }
  }

  lemma OldSeedThere(originals: seq<Source>, earlier: seq<Round>, st: State, i: nat, key: Key)
    requires AllReady(originals, earlier) && SeedsRecord(originals, earlier, st.seeds)
    requires i < |earlier| && Sows(earlier[i], key)
    ensures key in st.seeds && Kept(originals, earlier[i], st.seeds, key)
  {
  }

  lemma OldSeedKept(originals: seq<Source>, earlier: seq<Round>, st: State, round: Round, i: nat, key: Key)
    requires AllReady(originals, earlier) && SeedsRecord(originals, earlier, st.seeds)
    requires CanPlace(originals, st.seeds, round, |round.case_.indices|)
    requires Indexed(originals, round.case_.indices[..|round.case_.indices|])
    requires i < |earlier| && Sows(earlier[i], key)
    ensures Kept(originals, earlier[i], Sown(originals, st.seeds, round, |st.rows|, |round.case_.indices|), key)
  {
    OldSeedThere(originals, earlier, st, i, key);
    assert Sows(round, key) ==> CanPlaceAt(originals, st.seeds, round, key.position);
    SownKeys(originals, st.seeds, round, |st.rows|, |round.case_.indices|);
  }

  lemma NewSeedKept(originals: seq<Source>, st: State, round: Round, key: Key)
    requires Indexed(originals, round.case_.indices) && Sows(round, key)
    requires Indexed(originals, round.case_.indices[..|round.case_.indices|])
    ensures Kept(originals, round, Sown(originals, st.seeds, round, |st.rows|, |round.case_.indices|), key)
  {
    SownKeys(originals, st.seeds, round, |st.rows|, |round.case_.indices|);
    assert round.case_.indices[..|round.case_.indices|] == round.case_.indices;
  }

  lemma CasesGrow(originals: seq<Source>, earlier: seq<Round>, cases: seq<Entry>, round: Round, sample: Sample)
    requires AllReady(originals, earlier) && CasesRecord(originals, earlier, cases)
    requires Ready(originals, round.case_.indices) && !round.warmup
    requires Filed(originals, cases, round, sample).Some?
    ensures AllReady(originals, earlier + [round])
    ensures CasesRecord(originals, earlier + [round], Filed(originals, cases, round, sample).value)
  {
    var all, next := earlier + [round], Filed(originals, cases, round, sample).value;
    forall e | 0 <= e < |next|
      ensures Timed(all, next[e].name)
    {
      TimedGrows(earlier, round, next[e].name);
    }
    forall i | 0 <= i < |all| && !all[i].warmup
      ensures var there := Find(next, all[i].case_.name);
              there < |next| && next[there].contract == Terms(originals, all[i].case_)
    {
      FiledKeeps(originals, cases, round, sample, all[i].case_.name);
      if i < |earlier| { assert all[i] == earlier[i]; }
    }
  }

  lemma FiledKeeps(originals: seq<Source>, cases: seq<Entry>, round: Round, sample: Sample, name: string)
    requires Indexed(originals, round.case_.indices) && Filed(originals, cases, round, sample).Some?
    ensures var next := Filed(originals, cases, round, sample).value;
            && (Find(cases, name) < |cases| ==>
                  Find(next, name) == Find(cases, name)
                  && next[Find(next, name)].contract == cases[Find(cases, name)].contract)
            && (name == round.case_.name ==>
                  Find(next, name) < |next| && next[Find(next, name)].contract == Terms(originals, round.case_))
  {
    FindAfter(cases, Filed(originals, cases, round, sample).value, round.case_.name, name);
  }

  /** Filing a sample moves no case. */
  lemma FindAfter(cases: seq<Entry>, next: seq<Entry>, filed: string, name: string)
    requires |next| == if Find(cases, filed) == |cases| then |cases| + 1 else |cases|
    requires forall i :: 0 <= i < |cases| ==> next[i].name == cases[i].name
    requires |next| > |cases| ==> next[|cases|].name == filed
    ensures Find(cases, name) < |cases| ==> Find(next, name) == Find(cases, name)
    ensures name == filed ==> Find(next, name) == Find(cases, name)
  {
  }

  lemma GroupedRecords(originals: seq<Source>, earlier: seq<Round>, st: State, round: Round)
    requires Recorded(originals, earlier, st) && Grouped(originals, st, round).Some?
    ensures Recorded(originals, earlier + [round], Grouped(originals, st, round).value)
  {
    RoundMeans(originals, earlier, st, round);
    GroupedMeans(originals, st, round);
    SeedsGrow(originals, earlier, st, round, Grouped(originals, st, round).value.seeds);
    if round.warmup {
      WarmupFilesNothing(originals, earlier, st.cases, round);
    } else {
      CasesGrow(originals, earlier, st.cases, round, SampleOf(round, |st.rows|));
    }
  }

  lemma WarmupFilesNothing(originals: seq<Source>, earlier: seq<Round>, cases: seq<Entry>, round: Round)
    requires AllReady(originals, earlier) && CasesRecord(originals, earlier, cases)
    requires Ready(originals, round.case_.indices) && round.warmup
    ensures AllReady(originals, earlier + [round]) && CasesRecord(originals, earlier + [round], cases)
  {
    var all := earlier + [round];
    forall e | 0 <= e < |cases|
      ensures Timed(all, cases[e].name)
    {
      TimedGrows(earlier, round, cases[e].name);
    }
    forall i | 0 <= i < |all| && !all[i].warmup
      ensures var at := Find(cases, all[i].case_.name);
              at < |cases| && cases[at].contract == Terms(originals, all[i].case_)
    {
      assert i < |earlier| && all[i] == earlier[i];
    }
  }

  /** A list of groups becomes a menu exactly when each group meets its condition on those before
      it: room and one task, a fresh namespace when cold, a seed with the same tokens for every
      request when warm, and the contract its case had. */
  lemma {:induction false} DerivableWhen(originals: seq<Source>, rounds: seq<Round>)
    ensures Run(originals, rounds).Some? <==> AllOk(originals, rounds)
    ensures Run(originals, rounds).Some? ==> Recorded(originals, rounds, Run(originals, rounds).value)
  {
    if rounds != [] {
      var earlier, round := rounds[..|rounds| - 1], rounds[|rounds| - 1];
      DerivableWhen(originals, earlier);
      if Run(originals, earlier).Some? {
        var st := Run(originals, earlier).value;
        RoundMeans(originals, earlier, st, round);
        if Grouped(originals, st, round).Some? {
          GroupedRecords(originals, earlier, st, round);
          assert earlier + [round] == rounds;
        }
      }
    }
  }
}
