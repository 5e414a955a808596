/** The six cases and three repetitions the program fixes: the theorems about menus, at that list. */
module ShippedMenu {
  import opened Results
  import opened Menu
  import opened MenuProofs
  import opened MenuRows
  import opened MenuSchedule
  import opened MenuPlan
  import opened MenuCases
  import opened Arms
  import opened ArmEvidence
  import opened MenuArms
  import opened MenuEvidence
  import opened Report
  import opened MenuReport
  import opened MenuProfile
  import Jobs
  import Snapshot
  import Latency

  const CASES: seq<Case> := [
    Case("long-c1-cold", [3], false),
    Case("long-c1-warm", [3], true),
    Case("long-c2-cold", [8, 9], false),
    Case("long-c2-warm", [8, 9], true),
    Case("short-c1-cold", [12], false),
    Case("short-c2-cold", [12, 13], false)
  ]

  // ----- the list is a plan

  /** A dash stays where no "-warm" begins, and so do the letters after it. */
  lemma FamilyDash(letters: string, tail: string)
    requires NoDash(letters) && letters != "" && letters[0] != 'w'
    ensures Family("-" + (letters + tail)) == "-" + (letters + Family(tail))
  {
    var rest := "-" + (letters + tail);
    assert rest[1..] == letters + tail && rest[1] == letters[0];
    assert !("-warm" <= rest) by { assert "-warm"[1] == 'w'; }
    FamilyLetters(letters, tail);
  }

  lemma FamilyIntent(warm: bool)
    ensures Family(if warm then "-warm" else "-cold") == "-cold"
  {
    if warm {
      assert "-warm"[5..] == "";
    } else {
      FamilyDash("cold", "");
      assert "-" + ("cold" + "") == "-cold";
    }
  }

  /** Only the last part of a name in three parts changes. */
  lemma FamilyOf(length: string, width: string, warm: bool)
    requires NoDash(length) && NoDash(width) && width != "" && width[0] != 'w'
    ensures Family(length + ("-" + (width + if warm then "-warm" else "-cold"))) == length + ("-" + (width + "-cold"))
  {
    FamilyLetters(length, "-" + (width + if warm then "-warm" else "-cold"));
    FamilyDash(width, if warm then "-warm" else "-cold");
    FamilyIntent(warm);
  }

  lemma LongC1(warm: bool)
    ensures Family(if warm then "long-c1-warm" else "long-c1-cold") == "long-c1-cold"
  {
    hide Family;
    FamilyOf("long", "c1", warm);
    assert "long" + ("-" + ("c1" + "-cold")) == "long-c1-cold" && "long" + ("-" + ("c1" + "-warm")) == "long-c1-warm";
  }

  lemma LongC2(warm: bool)
    ensures Family(if warm then "long-c2-warm" else "long-c2-cold") == "long-c2-cold"
  {
    hide Family;
    FamilyOf("long", "c2", warm);
    assert "long" + ("-" + ("c2" + "-cold")) == "long-c2-cold" && "long" + ("-" + ("c2" + "-warm")) == "long-c2-warm";
  }

  lemma ShortC1()
    ensures Family("short-c1-cold") == "short-c1-cold"
  {
    hide Family;
    FamilyOf("short", "c1", false);
    assert "short" + ("-" + ("c1" + "-cold")) == "short-c1-cold";
  }

  lemma ShortC2()
    ensures Family("short-c2-cold") == "short-c2-cold"
  {
    hide Family;
    FamilyOf("short", "c2", false);
    assert "short" + ("-" + ("c2" + "-cold")) == "short-c2-cold";
  }

  lemma NamesApart()
    ensures DistinctNames(CASES)
  {
    assert "long-c1-cold"[8] == 'c' && "long-c1-warm"[8] == 'w' && "long-c2-cold"[8] == 'c' && "long-c2-warm"[8] == 'w';
    assert "long-c1-cold"[6] == '1' && "long-c1-warm"[6] == '1' && "long-c2-cold"[6] == '2' && "long-c2-warm"[6] == '2';
    assert "short-c1-cold"[7] == '1' && "short-c2-cold"[7] == '2';
  }

  const FAMILIES: seq<string> := ["long-c1-cold", "long-c1-cold", "long-c2-cold", "long-c2-cold", "short-c1-cold",
                                  "short-c2-cold"]

  lemma Families()
    ensures forall i :: 0 <= i < 6 ==> Family(CASES[i].name) == FAMILIES[i]
  {
    hide Family;
    LongC1(false);
    LongC1(true);
    LongC2(false);
    LongC2(true);
    ShortC1();
    ShortC2();
  }

  lemma FamiliesApart(i: nat, j: nat)
    requires i < j < 6 && !CASES[i].warm && !CASES[j].warm
    ensures FAMILIES[i] != FAMILIES[j]
  {
    assert "long-c1-cold"[6] == '1' && "long-c2-cold"[6] == '2';
    assert "short-c1-cold"[7] == '1' && "short-c2-cold"[7] == '2';
  }

  lemma FamiliesOwn(i: nat)
    requires i < 6
    ensures FAMILIES[i] !in ["warmup-c1", "warmup-c2"]
  {
    assert FAMILIES[i][0] != 'w' && "warmup-c1"[0] == "warmup-c2"[0] == 'w';
  }

  lemma PartnersThere(i: nat)
    requires i < 6 && CASES[i].warm
    ensures Partnered(CASES, i)
  {
    hide Family;
    Families();
    assert i == 1 || i == 3;
    assert Partner(CASES[i - 1], CASES[i]);
  }

  /** The list has its cold partners in place, and every namespace is its own. */
  lemma ShippedListed()
    ensures PlanListed(CASES)
  {
    hide Family, Partnered;
    NamesApart();
    Families();
    forall i | 0 <= i < |CASES| && !CASES[i].warm ensures Family(CASES[i].name) !in ["warmup-c1", "warmup-c2"] {
      FamiliesOwn(i);
    }
    forall i, j | 0 <= i < j < |CASES| && !CASES[i].warm && !CASES[j].warm
      ensures Family(CASES[i].name) != Family(CASES[j].name)
    {
      FamiliesApart(i, j);
    }
    forall i | 0 <= i < |CASES| && CASES[i].warm ensures Partnered(CASES, i) {
      PartnersThere(i);
    }
  }

  // ----- its size

  /** The requests of the first `a` cases. */
  lemma RequestsOf(a: nat)
    requires a <= 6
    ensures Requests(CASES[..a]) == [0, 1, 2, 4, 6, 7, 9][a]
  {
    if a > 0 {
      RequestsOf(a - 1);
      assert CASES[..a][..a - 1] == CASES[..a - 1];
    }
  }

  lemma RequestsOfAll()
    ensures Requests(CASES) == 9
  {
    RequestsOf(6);
    assert CASES[..6] == CASES;
  }

  /** The menu is derived exactly when the corpus holds what its six groups need, and is then the
      complete menu of thirty requests, twenty groups and six cases that the derivation asks for. */
  lemma ShippedDerivesWhen(originals: seq<Source>)
    ensures Derived(originals, CASES, SAMPLES).Some? <==>
            && Ready(originals, [0]) && Ready(originals, [1, 2]) && Ready(originals, [3]) && Ready(originals, [8, 9])
            && Ready(originals, [12]) && Ready(originals, [12, 13])
    ensures Derived(originals, CASES, SAMPLES).Some? ==>
      var menu := Derived(originals, CASES, SAMPLES).value;
      |menu.rows| == 30 && |menu.groups| == 20 && |menu.cases| == 6
  {
    ShippedListed();
    PlanDerivesWhen(originals, CASES, SAMPLES);
    ReadyParts(originals);
    if Derived(originals, CASES, SAMPLES).Some? {
      MenuSize(originals, CASES, SAMPLES);
      MenuLists(originals, CASES, SAMPLES);
      RequestsOfAll();
    }
  }

  lemma ReadyParts(originals: seq<Source>)
    ensures PlanReady(originals, CASES) <==>
            && Ready(originals, [0]) && Ready(originals, [1, 2]) && Ready(originals, [3]) && Ready(originals, [8, 9])
            && Ready(originals, [12]) && Ready(originals, [12, 13])
  {
    hide Ready;
    if PlanReady(originals, CASES) {
      assert Ready(originals, CASES[0].indices) && Ready(originals, CASES[2].indices);
      assert Ready(originals, CASES[4].indices) && Ready(originals, CASES[5].indices);
    }
  }

  // ----- its reports

  lemma NameLength(case_: Case, r: nat)
    requires case_ in CASES && r < SAMPLES
    ensures |GroupId(Round(case_, r, false))| <= 80
  {
    assert |case_.name| <= 13;
    assert |Decimal(r)| == 1;
  }

  /** The comparator scores the list exactly under a policy that is content with three samples. */
  lemma ShippedFits(policy: Latency.Policy)
    ensures ListFits(CASES, SAMPLES, policy) <==> policy.minimumSamples <= SAMPLES
  {
    assert |CASES[0].indices| == 1 && |CASES[2].indices| == 2;
    forall i | 0 <= i < |CASES| ensures CaseFits(CASES[i], SAMPLES) {
      forall r | 0 <= r < SAMPLES ensures |GroupId(Round(CASES[i], r, false))| <= 80 {
        NameLength(CASES[i], r);
      }
      assert |CASES[i].indices| == 1 || |CASES[i].indices| == 2;
    }
  }

  /** What a serving job needs beside the evidence of its two arms. */
  predicate ShippedJob(originals: seq<Source>, digest: seq<Term> -> string, workload: Workload, job: Job,
                       hex: Jobs.Sha -> string, pin: Workload -> string)
  {
    && Admitted(job, Jobs.Serving, hex) && pin(workload) == job.binding.workload
    && IdentityFits(IdentityOf(job, Latency.Control, hex)) && IdentityFits(IdentityOf(job, Latency.Mtp, hex))
    && job.binding.policy.minimumSamples <= SAMPLES && ContractsFit(originals, CASES, digest)
  }

  lemma ShippedJobFits(originals: seq<Source>, order: seq<Entry>, digest: seq<Term> -> string, job: Job,
                       hex: Jobs.Sha -> string, pin: Workload -> string)
    requires Derived(originals, CASES, SAMPLES).Some?
    ensures var workload := WorkloadOf(Derived(originals, CASES, SAMPLES).value, SAMPLES, order, digest);
            JobFits(originals, CASES, SAMPLES, digest, workload, job, hex, pin) <==>
            ShippedJob(originals, digest, workload, job, hex, pin)
  {
    hide Derived, ListFits, IdentityFits, ContractsFit;
    ShippedFits(job.binding.policy);
    ShippedDerivesWhen(originals);
  }

  /** A serving report of the shipped menu is made exactly when the job fits, both arms executed the
      menu and measured its 27 timed requests, and both counted the same prompt tokens for the first nine. */
  lemma ShippedServesWhen(originals: seq<Source>, order: seq<Entry>, digest: seq<Term> -> string, bf16: Arm, kv4: Arm,
                          job: Job, hex: Jobs.Sha -> string, pin: Workload -> string)
    requires Derived(originals, CASES, SAMPLES).Some?
    requires multiset(order) == multiset(Derived(originals, CASES, SAMPLES).value.cases)
    ensures var workload := WorkloadOf(Derived(originals, CASES, SAMPLES).value, SAMPLES, order, digest);
            ServingMade(bf16, kv4, workload, job, hex, pin) <==>
            && ShippedJob(originals, digest, workload, job, hex, pin)
            && Sound(bf16, workload, 9) && Sound(kv4, workload, 9) && PromptsAlike(bf16, kv4, 9)
  {
    NamesApart();
    RequestsOfAll();
    MenuServesWhen(originals, CASES, SAMPLES, order, digest, bf16, kv4, job, hex, pin);
    ShippedJobFits(originals, order, digest, job, hex, pin);
  }

  /** The profile menu of the shipped list is always cut, and is the five-request menu that the profile
      report asks for: the pair is the first cold run of the long C2 case. */
  lemma ShippedProfiles(originals: seq<Source>)
    requires Derived(originals, CASES, SAMPLES).Some?
    ensures var menu := Derived(originals, CASES, SAMPLES).value;
            && |menu.rows| >= 7 && AllCold(menu.rows, 5) && HasPair(menu.groups)
            && Profilable(menu) && ProfileShape(ProfileWorkload(KeptGroups(menu.groups)))
  {
    NamesApart();
    RequestsOf(2);
    PairProfiles(originals, CASES, SAMPLES, 2);
  }
}
