/** A plan whose warm cases follow their cold partners can always be derived. */
module MenuPlan {
  import opened Results
  import opened Folding
  import opened Menu
  import opened MenuProofs
  import opened MenuRows
  import opened MenuSchedule

  /** An earlier cold case of the same family sends the same requests. */
  predicate Partner(cold: Case, warm: Case) {
    !cold.warm && Family(cold.name) == Family(warm.name) && cold.indices == warm.indices
  }

  predicate Partnered(cases: seq<Case>, at: nat)
    requires at < |cases|
  {
    exists i :: 0 <= i < at && Partner(cases[i], cases[at])
  }

  /** What a list of cases must be: distinct names, cold families of their own, and each warm case
      after its cold partner. */
  predicate PlanListed(cases: seq<Case>) {
    && DistinctNames(cases)
    && (forall i :: 0 <= i < |cases| && !cases[i].warm ==> Family(cases[i].name) !in ["warmup-c1", "warmup-c2"])
    && (forall i, j :: 0 <= i < j < |cases| && !cases[i].warm && !cases[j].warm ==>
          Family(cases[i].name) != Family(cases[j].name))
    && (forall i :: 0 <= i < |cases| && cases[i].warm ==> Partnered(cases, i))
  }

  /** What the corpus must hold: usable requests of one task, and room for each group of them. */
  predicate PlanReady(originals: seq<Source>, cases: seq<Case>) {
    && Ready(originals, [0]) && Ready(originals, [1, 2])
    && forall i :: 0 <= i < |cases| ==> Ready(originals, cases[i].indices)
  }

  predicate PlanOk(originals: seq<Source>, cases: seq<Case>) {
    PlanListed(cases) && PlanReady(originals, cases)
  }

  predicate FromPlan(cases: seq<Case>, round: Round, samples: nat) {
    round in Warmups || (!round.warmup && round.case_ in cases && round.repetition < samples)
  }

  lemma {:induction false} RoundsFromPlan(cases: seq<Case>, samples: nat)
    ensures forall i :: 0 <= i < |Rounds(cases, samples)| ==> FromPlan(cases, Rounds(cases, samples)[i], samples)
  {
    if samples > 0 {
      RoundsFromPlan(cases, samples - 1);
      var all := Rounds(cases, samples);
      forall i | 0 <= i < |all|
        ensures FromPlan(cases, all[i], samples)
      {
        if i < |Rounds(cases, samples - 1)| {
          assert FromPlan(cases, all[i], samples - 1);
        } else {
          assert all[i] == Repetition(cases, samples - 1)[i - |Rounds(cases, samples - 1)|];
        }
      }
    }
  }

  lemma WarmupFamilies()
    ensures Family("warmup-c1") == "warmup-c1" && Family("warmup-c2") == "warmup-c2"
  {
    WarmupFamily("c1");
    WarmupFamily("c2");
    assert "warmup" + "-" + "c1" == "warmup-c1" && "warmup" + "-" + "c2" == "warmup-c2";
  }

  lemma WarmupFamily(tail: string)
    requires NoDash(tail) && |tail| < 4
    ensures Family("warmup" + "-" + tail) == "warmup" + "-" + tail
  {
    var rest := "-" + tail;
    assert "warmup" + "-" + tail == "warmup" + rest;
    FamilyLetters("warmup", rest);
    assert rest[1..] == tail && !("-warm" <= rest);
    FamilyLetters(tail, "");
    assert tail + "" == tail;
  }

  /** Letters before the first dash stay as they are. */
  lemma {:induction false} FamilyLetters(s: string, t: string)
    requires NoDash(s)
    ensures Family(s + t) == s + Family(t)
  {
    if s == "" {
      assert s + t == t;
    } else {
      assert (s + t)[0] == s[0] && (s + t)[1..] == s[1..] + t;
      FamilyLetters(s[1..], t);
    }
  }

  /** The rounds before the `at`-th case of a repetition. */
  function Before(cases: seq<Case>, repetition: nat, at: nat): seq<Round>
    requires at <= |cases|
  {
    Rounds(cases, repetition) + Repetition(cases, repetition)[..at]
  }

  lemma BeforeAre(cases: seq<Case>, repetition: nat, at: nat, i: nat)
    requires at <= |cases| && i < |Before(cases, repetition, at)|
    ensures var round := Before(cases, repetition, at)[i];
            || round in Warmups
            || (!round.warmup && round.case_ in cases && round.repetition < repetition)
            || (exists c :: 0 <= c < at && round == Round(cases[c], repetition, false))
  {
    RoundsFromPlan(cases, repetition);
    var base := |Rounds(cases, repetition)|;
    if i < base {
      assert FromPlan(cases, Rounds(cases, repetition)[i], repetition);
    } else {
      assert Before(cases, repetition, at)[i] == Round(cases[i - base], repetition, false);
    }
  }

  lemma ColdSeedsOk(originals: seq<Source>, cases: seq<Case>, repetition: nat, at: nat)
    requires PlanOk(originals, cases) && at < |cases| && !cases[at].warm
    ensures SeedsOk(originals, Before(cases, repetition, at), Round(cases[at], repetition, false))
  {
    var earlier, round := Before(cases, repetition, at), Round(cases[at], repetition, false);
    WarmupFamilies();
    forall i | 0 <= i < |earlier|
      ensures earlier[i].case_.warm || !SameNamespace(earlier[i], round)
    {
      BeforeAre(cases, repetition, at, i);
    }
  }

  lemma WarmSeedsOk(originals: seq<Source>, cases: seq<Case>, repetition: nat, at: nat)
    requires PlanOk(originals, cases) && at < |cases| && cases[at].warm
    ensures SeedsOk(originals, Before(cases, repetition, at), Round(cases[at], repetition, false))
  {
    var earlier, round := Before(cases, repetition, at), Round(cases[at], repetition, false);
    assert Partnered(cases, at);
    var c :| 0 <= c < at && Partner(cases[c], cases[at]);
    var i := |Rounds(cases, repetition)| + c;
    assert earlier[i] == Round(cases[c], repetition, false);
    forall p | 0 <= p < |round.case_.indices|
      ensures Seeded(originals, earlier, round, p)
    {
      assert Seeds(originals, earlier[i], round, p);
    }
  }

  lemma PlanContractOk(originals: seq<Source>, cases: seq<Case>, repetition: nat, at: nat)
    requires PlanOk(originals, cases) && at < |cases|
    ensures ContractOk(originals, Before(cases, repetition, at), Round(cases[at], repetition, false))
  {
    var earlier, round := Before(cases, repetition, at), Round(cases[at], repetition, false);
    forall i | 0 <= i < |earlier| && !earlier[i].warmup && earlier[i].case_.name == round.case_.name
      ensures earlier[i].case_ == round.case_
    {
      BeforeAre(cases, repetition, at, i);
      var c :| 0 <= c < |cases| && cases[c] == earlier[i].case_;
    }
  }

  lemma PlanRoundOk(originals: seq<Source>, cases: seq<Case>, repetition: nat, at: nat)
    requires PlanOk(originals, cases) && at < |cases|
    ensures RoundOk(originals, Before(cases, repetition, at), Round(cases[at], repetition, false))
  {
    if cases[at].warm {
      WarmSeedsOk(originals, cases, repetition, at);
    } else {
      ColdSeedsOk(originals, cases, repetition, at);
    }
    PlanContractOk(originals, cases, repetition, at);
  }

  lemma BeforeNext(cases: seq<Case>, repetition: nat, at: nat)
    requires at < |cases|
    ensures Before(cases, repetition, at + 1) == Before(cases, repetition, at) + [Round(cases[at], repetition, false)]
  {
  }

  lemma {:induction false} RepetitionOk(originals: seq<Source>, cases: seq<Case>, repetition: nat, at: nat)
    requires PlanOk(originals, cases) && at <= |cases| && AllOk(originals, Rounds(cases, repetition))
    ensures AllOk(originals, Before(cases, repetition, at))
  {
    if at == 0 {
      assert Before(cases, repetition, 0) == Rounds(cases, repetition);
    } else {
      RepetitionOk(originals, cases, repetition, at - 1);
      PlanRoundOk(originals, cases, repetition, at - 1);
      BeforeNext(cases, repetition, at - 1);
      AllOkSnoc(originals, Before(cases, repetition, at - 1), Round(cases[at - 1], repetition, false));
    }
  }

  lemma AllOkSnoc(originals: seq<Source>, earlier: seq<Round>, round: Round)
    requires AllOk(originals, earlier) && RoundOk(originals, earlier, round)
    ensures AllOk(originals, earlier + [round])
  {
    assert (earlier + [round])[..|earlier|] == earlier;
  }

  lemma WarmupsOk(originals: seq<Source>)
    requires Ready(originals, [0]) && Ready(originals, [1, 2])
    ensures AllOk(originals, Warmups)
  {
    WarmupFamilies();
    AllOkSnoc(originals, [], Warmups[0]);
    AllOkSnoc(originals, [Warmups[0]], Warmups[1]);
    assert [] + [Warmups[0]] == [Warmups[0]] && [Warmups[0]] + [Warmups[1]] == Warmups;
  }

  lemma {:induction false} PlanRounds(originals: seq<Source>, cases: seq<Case>, samples: nat)
    requires PlanOk(originals, cases)
    ensures AllOk(originals, Rounds(cases, samples))
  {
    if samples == 0 {
      WarmupsOk(originals);
    } else {
      PlanRounds(originals, cases, samples - 1);
      RepetitionOk(originals, cases, samples - 1, |cases|);
      assert Repetition(cases, samples - 1)[..|cases|] == Repetition(cases, samples - 1);
    }
  }

  /** Every such plan is derived, whatever the number of repetitions, into a menu whose
      groups partition its requests in order and whose cases score each request after the warmups once. */
  lemma PlanDerives(originals: seq<Source>, cases: seq<Case>, samples: nat)
    requires PlanOk(originals, cases)
    ensures Derived(originals, cases, samples).Some?
    ensures var menu := Derived(originals, cases, samples).value;
            && DistinctIds(menu.groups) && Flat(menu.groups) == Count(0, |menu.rows|)
            && |menu.rows| >= 3
            && Scored(menu.cases) == multiset(Count(3, |menu.rows| - 3))
  {
    PlanRounds(originals, cases, samples);
    DerivableWhen(originals, Rounds(cases, samples));
    MenuCovers(originals, cases, samples);
    MenuScoredOnce(originals, cases, samples);
  }

  // ----- and only such a plan

  lemma {:induction false} ReadyAt(originals: seq<Source>, rounds: seq<Round>, i: nat)
    requires AllOk(originals, rounds) && i < |rounds|
    ensures Ready(originals, rounds[i].case_.indices)
  {
    if i < |rounds| - 1 { ReadyAt(originals, rounds[..|rounds| - 1], i); }
  }

  /** A menu begins with the warmups and the first repetition. */
  lemma {:induction false} FirstRounds(cases: seq<Case>, samples: nat, a: nat)
    requires samples > 0 && a <= |cases|
    ensures |Rounds(cases, samples)| >= 2 + a && Rounds(cases, samples)[..2 + a] == Before(cases, 0, a)
  {
    if samples == 1 {
      assert Rounds(cases, 1) == Warmups + Repetition(cases, 0);
    } else {
      FirstRounds(cases, samples - 1, a);
    }
  }

  lemma FirstRoundAt(cases: seq<Case>, samples: nat, i: nat)
    requires samples > 0 && i < |cases|
    ensures |Rounds(cases, samples)| >= 2 + |cases|
    ensures Rounds(cases, samples)[2 + i] == Round(cases[i], 0, false)
  {
    FirstRounds(cases, samples, |cases|);
    assert Before(cases, 0, |cases|)[2 + i] == Round(cases[i], 0, false);
  }

  /** A list of cases with its cold partners in place is derived exactly when the corpus holds what each
      group needs; nothing else can go wrong, in any repetition. */
  lemma PlanDerivesWhen(originals: seq<Source>, cases: seq<Case>, samples: nat)
    requires PlanListed(cases) && samples > 0
    ensures Derived(originals, cases, samples).Some? <==> PlanReady(originals, cases)
  {
    if PlanReady(originals, cases) { PlanDerives(originals, cases, samples); }
    if Derived(originals, cases, samples).Some? {
      var rounds := Rounds(cases, samples);
      DerivableWhen(originals, rounds);
      FirstRounds(cases, samples, 0);
      assert rounds[..2] == Warmups && rounds[0] == rounds[..2][0] && rounds[1] == rounds[..2][1];
      ReadyAt(originals, rounds, 0);
      ReadyAt(originals, rounds, 1);
      forall i | 0 <= i < |cases| ensures Ready(originals, cases[i].indices) {
        FirstRoundAt(cases, samples, i);
        ReadyAt(originals, rounds, 2 + i);
      }
    }
  }
}
